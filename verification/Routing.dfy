/**
 * Sending a request to a peer over Mesh, a reverse relay or the public address, and what each
 * call adds to the telemetry (src/control_plane_mesh.rs, src/mesh_telemetry.rs).
 */
module Routing {
  import opened Collections
  import opened PeerBreaker
  import opened Words

  // ----- what a call leaves behind

  datatype Path = Mesh | Public

  /** Primary and standby rendezvous are one class. */
  datatype RouteClass = Direct | Reverse | PublicAddress

  datatype Op =
    | Sent(route: RouteClass)
    | Sample(path: Path, success: bool, fallback: bool)
    | TerminalFailure
    | Reported(report: Report)

  /** The counters of a telemetry bucket, with the routes used and the reports to the breaker. */
  datatype Tally = Tally(meshSuccess: nat, meshFailure: nat, publicSuccess: nat, publicFailure: nat,
                         endSuccess: nat, endFailure: nat, fallbackSuccess: nat,
                         heard: Heard, routes: Routes)

  /** How often the breaker was told of a success, of a retryable failure, or to release a probe. */
  datatype Heard = Heard(success: nat, failure: nat, release: nat)

  /** The classes of route used. */
  datatype Routes = Routes(direct: bool, reverse: bool, publicAddress: bool)

  const SILENCE := Heard(0, 0, 0)

  const NOWHERE := Routes(false, false, false)

  const ZERO := Tally(0, 0, 0, 0, 0, 0, 0, SILENCE, NOWHERE)

  function Via(routes: Routes, route: RouteClass): Routes {
    match route
    case Direct => routes.(direct := true)
    case Reverse => routes.(reverse := true)
    case PublicAddress => routes.(publicAddress := true)
  }

  predicate Used(routes: Routes, route: RouteClass) {
    Via(routes, route) == routes
  }

  function Told(heard: Heard, report: Report): Heard {
    match report
    case Success => heard.(success := heard.success + 1)
    case Failure => heard.(failure := heard.failure + 1)
    case Release => heard.(release := heard.release + 1)
  }

  function Sampled(t: Tally, path: Path, success: bool): Tally {
    match (path, success)
    case (Mesh, true) => t.(meshSuccess := t.meshSuccess + 1, endSuccess := t.endSuccess + 1)
    case (Mesh, false) => t.(meshFailure := t.meshFailure + 1)
    case (Public, true) => t.(publicSuccess := t.publicSuccess + 1, endSuccess := t.endSuccess + 1)
    case (Public, false) => t.(publicFailure := t.publicFailure + 1, endFailure := t.endFailure + 1)
  }

  function Bump(t: Tally, op: Op): Tally {
    match op
    case Sent(route) => t.(routes := Via(t.routes, route))
    case Sample(path, success, fallback) =>
      var counted := Sampled(t, path, success);
      if fallback && success then counted.(fallbackSuccess := t.fallbackSuccess + 1) else counted
    case TerminalFailure => t.(endFailure := t.endFailure + 1)
    case Reported(report) => t.(heard := Told(t.heard, report))
  }

  function Tallied(log: seq<Op>): Tally {
    if log == [] then ZERO else Bump(Tallied(log[..|log| - 1]), log[|log| - 1])
  }

  function Write(log: seq<Op>, op: Op): (r: seq<Op>)
    ensures r == log + [op] && Tallied(r) == Bump(Tallied(log), op)
  {
    assert (log + [op])[..|log|] == log;
    log + [op]
  }

  // ----- the counters of one bucket

  class TelemetryBucket {
    var meshSuccess: nat
    var meshFailure: nat
    var publicSuccess: nat
    var publicFailure: nat
    var endSuccess: nat
    var endFailure: nat
    var fallbackSuccess: nat

    ghost predicate Shows(t: Tally)
      reads this
    {
      && meshSuccess == t.meshSuccess && meshFailure == t.meshFailure
      && publicSuccess == t.publicSuccess && publicFailure == t.publicFailure
      && endSuccess == t.endSuccess && endFailure == t.endFailure && fallbackSuccess == t.fallbackSuccess
    }

    constructor ()
      ensures Shows(ZERO)
    {
      meshSuccess, meshFailure, publicSuccess, publicFailure := 0, 0, 0, 0;
      endSuccess, endFailure, fallbackSuccess := 0, 0, 0;
    }

    /** The counting part of `record_sample_with_active_route`. */
    method RecordSample(path: Path, success: bool, fallback: bool, ghost log: seq<Op>)
      requires Shows(Tallied(log))
      modifies this
      ensures Shows(Tallied(log + [Sample(path, success, fallback)]))
    {
      ghost var more := Write(log, Sample(path, success, fallback));
      match (path, success) {
        case (Mesh, true) =>
          meshSuccess := meshSuccess + 1;
          endSuccess := endSuccess + 1;
        case (Mesh, false) =>
          meshFailure := meshFailure + 1;
        case (Public, true) =>
          publicSuccess := publicSuccess + 1;
          endSuccess := endSuccess + 1;
        case (Public, false) =>
          publicFailure := publicFailure + 1;
          endFailure := endFailure + 1;
      }
      if fallback && success {
        fallbackSuccess := fallbackSuccess + 1;
      }
    }

    /** The counting part of `record_terminal_failure`. */
    method RecordTerminalFailure(ghost log: seq<Op>)
      requires Shows(Tallied(log))
      modifies this
      ensures Shows(Tallied(log + [TerminalFailure]))
    {
      ghost var more := Write(log, TerminalFailure);
      endFailure := endFailure + 1;
    }
  }

  // ----- one call

  datatype Ack = NoAck | Malformed | Rejected | Verified

  datatype Reply = Answered(h2: bool, ack: Ack, notFound: bool) | TransportError | TimedOut

  /** A call: `relayPath` when the path itself is the relay's, `budget` in milliseconds. */
  datatype Request = Request(budget: nat, allowAmbiguous: bool, relayPath: bool, allowNotFound: bool, allowPublic: bool)

  /**
   * All that the call does not decide: the breaker's decision, whether the URLs join, what
   * comes back, the relay candidates' answers in order, and the clock readings.
   */
  datatype World = World(decision: Decision, meshJoins: bool, reply: Reply, reverseEnabled: bool,
                         relays: Option<seq<bool>>, relayElapsed: nat -> nat, publicElapsed: nat,
                         publicJoins: bool, publicAnswers: bool)

  datatype Outcome = Done(route: RouteClass) | Failed | BadUrl

  predicate Granted(d: Decision) {
    d.Attempt? || d.Probe?
  }

  function RouteBudget(total: nat): nat {
    MeshAttemptBudget(total)
  }

  /** Mesh answered in a way the caller may use. */
  predicate Accepted(r: Request, w: World) {
    && w.reply.Answered? && w.reply.h2
    && (w.reply.ack.Verified? || (w.reply.ack.NoAck? && r.allowNotFound && w.reply.notFound))
  }

  /** What the Mesh attempt leaves to be done. */
  datatype Attempted = Settled(outcome: Outcome) | GoOn(ambiguous: bool, fallback: bool)

  /** The direct attempt, when the breaker grants one. */
  method TryMesh(r: Request, w: World) returns (next: Attempted, log: seq<Op>)
    ensures var t := Tallied(log);
            if !Granted(w.decision) then log == [] && next == GoOn(false, w.decision.SkipOpen?)
            else if !w.meshJoins then log == [] && next == Settled(BadUrl)
            else if !w.reply.Answered? then
              t == ZERO.(meshFailure := 1, heard := Heard(0, 1, 0), routes := Via(NOWHERE, Direct))
              && next == GoOn(true, true)
            else if Accepted(r, w) then
              t == ZERO.(meshSuccess := 1, endSuccess := 1, heard := Heard(1, 0, 0), routes := Via(NOWHERE, Direct))
              && next == Settled(Done(Direct))
            else t == ZERO.(meshFailure := 1, endFailure := 1, heard := Heard(0, 0, 1), routes := Via(NOWHERE, Direct))
                 && next == Settled(Failed)
  {
    log := [];
    if !Granted(w.decision) {
      return GoOn(false, w.decision.SkipOpen?), log;
    }
    if !w.meshJoins {
      return Settled(BadUrl), log;
    }
    log := Write(log, Sent(Direct));
    match w.reply
    case Answered(h2, ack, notFound) =>
      if !h2 || ack.Malformed? || ack.Rejected? {
        log := Reject(log);
        next := Settled(Failed);
      } else if ack.Verified? || (r.allowNotFound && notFound) {
        log := Write(log, Reported(Success));
        log := Write(log, Sample(Mesh, true, false));
        next := Settled(Done(Direct));
      } else {
        log := Reject(log);
        next := Settled(Failed);
      }
    case _ =>
      log := Write(log, Reported(Failure));
      log := Write(log, Sample(Mesh, false, false));
      next := GoOn(true, true);
  }

  function Reject(log: seq<Op>): (r: seq<Op>)
    ensures Tallied(r) ==
            Bump(Bump(Bump(Tallied(log), Reported(Release)), Sample(Mesh, false, false)), TerminalFailure)
  {
    Write(Write(Write(log, Reported(Release)), Sample(Mesh, false, false)), TerminalFailure)
  }

  /** The loop over the primary and the standby rendezvous. */
  method TryRelays(r: Request, w: World, relays: seq<bool>, start: seq<Op>, ambiguous: bool)
    returns (done: bool, ambiguous': bool, log: seq<Op>)
    ensures done ==> Tallied(log) == Bump(Bump(Tallied(start), Sent(Reverse)), Sample(Mesh, true, true))
    ensures !done ==> || (log == start && ambiguous' == ambiguous)
                      || (Tallied(log) == Bump(Tallied(start), Sent(Reverse)) && ambiguous')
  {
    done, ambiguous', log := false, ambiguous, start;
    for i := 0 to |relays|
      invariant !done
      invariant || (log == start && ambiguous' == ambiguous)
                || (Tallied(log) == Bump(Tallied(start), Sent(Reverse)) && ambiguous')
    {
      var budget := Min(RouteBudget(r.budget), Max(r.budget - w.relayElapsed(i), 0));
      if budget == 0 {
        break;
      }
      log := Write(log, Sent(Reverse));
      if relays[i] {
        log := Write(log, Sample(Mesh, true, true));
        return true, ambiguous', log;
      }
      ambiguous' := true;
    }
  }

  predicate ShouldTryReverse(r: Request, w: World, ambiguous: bool) {
    && w.reverseEnabled && !r.relayPath && (ambiguous || w.decision.Disabled? || w.decision.SkipOpen?)
    && (r.allowAmbiguous || !ambiguous) && w.relays.Some?
  }

  /** The public address, as the last resort. */
  method TryPublic(r: Request, w: World, start: seq<Op>, ambiguous: bool, fallback: bool)
    returns (outcome: Outcome, log: seq<Op>)
    ensures outcome.BadUrl? ==> !w.publicJoins && log == start && r.allowPublic
    ensures outcome.Done? ==>
              && Tallied(log) == Bump(Bump(Tallied(start), Sent(PublicAddress)), Sample(Public, true, fallback))
              && outcome.route == PublicAddress && r.allowPublic && (ambiguous ==> r.allowAmbiguous)
    ensures outcome.Failed? ==>
              || Tallied(log) == Bump(Tallied(start), TerminalFailure)
              || (&& Tallied(log) == Bump(Bump(Tallied(start), Sent(PublicAddress)), Sample(Public, false, fallback))
                  && r.allowPublic && (ambiguous ==> r.allowAmbiguous))
  {
    log := start;
    if !r.allowPublic {
      return Failed, Write(log, TerminalFailure);
    }
    if !r.allowAmbiguous && ambiguous {
      return Failed, Write(log, TerminalFailure);
    }
    if Max(r.budget - w.publicElapsed, 0) == 0 {
      return Failed, Write(log, TerminalFailure);
    }
    if !w.publicJoins {
      return BadUrl, log;
    }
    log := Write(log, Sent(PublicAddress));
    log := Write(log, Sample(Public, w.publicAnswers, fallback));
    return if w.publicAnswers then Done(PublicAddress) else Failed, log;
  }

  /** What the breaker hears about a call. */
  function Expected(r: Request, w: World): Heard {
    if !Granted(w.decision) || !w.meshJoins then SILENCE
    else if !w.reply.Answered? then Heard(0, 1, 0)
    else if Accepted(r, w) then Heard(1, 0, 0) else Heard(0, 0, 1)
  }

  /** `send_peer_request_with_legacy_not_found`. */
  method Send(r: Request, w: World) returns (outcome: Outcome, log: seq<Op>)
    // One end-to-end count per call, a success exactly when the call returns a response.
    ensures Accounted(outcome, Tallied(log))
    // A URL that does not join is the only way to leave no count.
    ensures outcome.BadUrl? ==> (Granted(w.decision) && !w.meshJoins) || !w.publicJoins
    ensures Granted(w.decision) && !w.meshJoins ==> outcome.BadUrl? && log == []
    // The breaker hears once about every granted attempt whose URL joins, and never otherwise.
    ensures Tallied(log).heard == Expected(r, w)
    // Without leave to repeat an ambiguous request, only one class of route is ever used.
    ensures !r.allowAmbiguous ==> OneClass(Tallied(log).routes)
    ensures Tallied(log).routes.direct <==> Granted(w.decision) && w.meshJoins
    ensures Tallied(log).routes.publicAddress ==> r.allowPublic
    ensures outcome.Done? ==> Used(Tallied(log).routes, outcome.route)
    ensures Tallied(log).publicSuccess == if outcome == Done(PublicAddress) then 1 else 0
  {
    var next;
    next, log := TryMesh(r, w);
    if next.Settled? {
      return next.outcome, log;
    }
    var ambiguous, fallback := next.ambiguous, next.fallback;
    if ShouldTryReverse(r, w, ambiguous) {
      var done;
      done, ambiguous, log := TryRelays(r, w, w.relays.value, log, ambiguous);
      if done {
        return Done(Reverse), log;
      }
    }
    outcome, log := TryPublic(r, w, log, ambiguous, fallback);
  }

  predicate Accounted(outcome: Outcome, t: Tally) {
    && t.endSuccess == (if outcome.Done? then 1 else 0)
    && t.endFailure == (if outcome.Failed? then 1 else 0)
  }

  predicate OneClass(routes: Routes) {
    !(routes.direct && routes.reverse) && !(routes.direct && routes.publicAddress)
    && !(routes.reverse && routes.publicAddress)
  }

  // ----- any run of calls, in any interleaving

  function Plus(a: Tally, b: Tally): Tally {
    Tally(a.meshSuccess + b.meshSuccess, a.meshFailure + b.meshFailure, a.publicSuccess + b.publicSuccess,
          a.publicFailure + b.publicFailure, a.endSuccess + b.endSuccess, a.endFailure + b.endFailure,
          a.fallbackSuccess + b.fallbackSuccess,
          Heard(a.heard.success + b.heard.success, a.heard.failure + b.heard.failure,
                a.heard.release + b.heard.release),
          Routes(a.routes.direct || b.routes.direct, a.routes.reverse || b.routes.reverse,
                 a.routes.publicAddress || b.routes.publicAddress))
  }

  lemma BumpRight(a: Tally, b: Tally, op: Op)
    ensures Plus(a, Bump(b, op)) == Bump(Plus(a, b), op)
  {
    match op {
      case Sent(route) => match route { case Direct => case Reverse => case PublicAddress => }
      case Sample(path, success, fallback) => match path { case Mesh => case Public => }
      case TerminalFailure =>
      case Reported(report) => match report { case Success => case Failure => case Release => }
    }
  }

  lemma BumpLeft(a: Tally, b: Tally, op: Op)
    ensures Plus(Bump(a, op), b) == Bump(Plus(a, b), op)
  {
    match op {
      case Sent(route) => match route { case Direct => case Reverse => case PublicAddress => }
      case Sample(path, success, fallback) => match path { case Mesh => case Public => }
      case TerminalFailure =>
      case Reported(report) => match report { case Success => case Failure => case Release => }
    }
  }

  lemma {:induction false} TalliedSplits(a: seq<Op>, b: seq<Op>)
    ensures Tallied(a + b) == Plus(Tallied(a), Tallied(b))
    decreases |b|
  {
    if b == [] {
      assert a + b == a;
    } else {
      var rest, op := b[..|b| - 1], b[|b| - 1];
      TalliedSplits(a, rest);
      AppendLast(a, b);
      var more := Write(a + rest, op);
      BumpRight(Tallied(a), Tallied(rest), op);
    }
  }

  lemma TalliedWithout(log: seq<Op>, i: nat)
    requires i < |log|
    ensures Tallied(log) == Bump(Tallied(log[..i] + log[i + 1..]), log[i])
  {
    var front, op, back := log[..i], log[i], log[i + 1..];
    TakeApart(log, i);
    var more := Write(front, op);
    TalliedSplits(front + [op], back);
    TalliedSplits(front, back);
    BumpLeft(Tallied(front), Tallied(back), op);
  }

  /** The counters do not depend on the order in which concurrent calls reach them. */
  lemma {:induction false} TallyIsOrderFree(a: seq<Op>, b: seq<Op>)
    requires multiset(a) == multiset(b)
    ensures Tallied(a) == Tallied(b)
    decreases |a|
  {
    if a == [] {
      assert |b| == |multiset(b)| == 0;
    } else {
      var n := |a| - 1;
      assert a[n] in multiset(b);
      var i :| 0 <= i < |b| && b[i] == a[n];
      TalliedWithout(b, i);
      RemoveSame(a, b, i);
      TallyIsOrderFree(a[..n], b[..i] + b[i + 1..]);
    }
  }

  datatype Call = Call(outcome: Outcome, log: seq<Op>)

  function AllOps(calls: seq<Call>): seq<Op> {
    if calls == [] then [] else AllOps(calls[..|calls| - 1]) + calls[|calls| - 1].log
  }

  function Successes(calls: seq<Call>): nat {
    if calls == [] then 0
    else Successes(calls[..|calls| - 1]) + if calls[|calls| - 1].outcome.Done? then 1 else 0
  }

  function Failures(calls: seq<Call>): nat {
    if calls == [] then 0
    else Failures(calls[..|calls| - 1]) + if calls[|calls| - 1].outcome.Failed? then 1 else 0
  }

  lemma {:induction false} CallsAddUp(calls: seq<Call>)
    requires forall i :: 0 <= i < |calls| ==> Accounted(calls[i].outcome, Tallied(calls[i].log))
    ensures Tallied(AllOps(calls)).endSuccess == Successes(calls)
    ensures Tallied(AllOps(calls)).endFailure == Failures(calls)
    decreases |calls|
  {
    if calls != [] {
      var rest, c := calls[..|calls| - 1], calls[|calls| - 1];
      CallsAddUp(rest);
      TalliedSplits(AllOps(rest), c.log);
      assert Accounted(c.outcome, Tallied(c.log));
    }
  }

  /** Every success is counted once for its path and once end to end, at every moment of every run. */
  lemma {:induction false} PathsMatchEndToEnd(log: seq<Op>)
    ensures Tallied(log).meshSuccess + Tallied(log).publicSuccess == Tallied(log).endSuccess
    ensures Tallied(log).publicFailure <= Tallied(log).endFailure
    ensures Tallied(log).fallbackSuccess <= Tallied(log).endSuccess
    decreases |log|
  {
    if log != [] {
      PathsMatchEndToEnd(log[..|log| - 1]);
    }
  }

  /**
   * Whatever the order in which concurrent calls reach the counters, the end-to-end counts are
   * the numbers of calls that returned a response and that failed, and the two paths' successes
   * add up to the former.
   */
  lemma EveryRunIsAccounted(calls: seq<Call>, trace: seq<Op>)
    requires forall i :: 0 <= i < |calls| ==> Accounted(calls[i].outcome, Tallied(calls[i].log))
    requires multiset(trace) == multiset(AllOps(calls))
    ensures Tallied(trace).endSuccess == Successes(calls) && Tallied(trace).endFailure == Failures(calls)
    ensures Tallied(trace).meshSuccess + Tallied(trace).publicSuccess == Successes(calls)
  {
    TallyIsOrderFree(trace, AllOps(calls));
    CallsAddUp(calls);
    PathsMatchEndToEnd(trace);
  }

  // ----- reading the counters

  datatype Counts = Counts(success: nat, failure: nat)

  /** `end_to_end_counts`: buckets written before the end-to-end counters existed are estimated. */
  function EndToEndCounts(t: Tally): Counts {
    if t.endSuccess > 0 || t.endFailure > 0 then Counts(t.endSuccess, t.endFailure)
    else Counts(t.meshSuccess + t.publicSuccess, Max(t.meshFailure + t.publicFailure - t.fallbackSuccess, 0))
  }

  lemma ReadingIsExactIff(t: Tally)
    requires t.meshSuccess + t.publicSuccess == t.endSuccess
    requires t.publicFailure <= t.endFailure && t.fallbackSuccess <= t.endSuccess
    ensures EndToEndCounts(t) == Counts(t.endSuccess, t.endFailure) <==>
            t.endSuccess > 0 || t.endFailure > 0 || t.meshFailure == 0
  {
  }

  /**
   * The reading is exact unless nothing has finished yet while a Mesh attempt has failed: the
   * estimate then shows the unfinished call as a failure.
   */
  lemma CountsAreExactIff(log: seq<Op>)
    ensures var t := Tallied(log);
            EndToEndCounts(t) == Counts(t.endSuccess, t.endFailure) <==>
            t.endSuccess > 0 || t.endFailure > 0 || t.meshFailure == 0
  {
    PathsMatchEndToEnd(log);
    ReadingIsExactIff(Tallied(log));
  }

  lemma TallyOfThree(log: seq<Op>, t: Tally)
    requires |log| == 3 && t == Bump(Bump(Bump(ZERO, log[0]), log[1]), log[2])
    ensures Tallied(log) == t
  {
    var one, two := log[..1], log[..2];
    assert two[..1] == one && one[..0] == [];
    assert Tallied(one) == Bump(ZERO, log[0]);
    assert Tallied(two) == Bump(Tallied(one), log[1]);
  }

  /** An attempt has failed over Mesh and its fallback is still under way. */
  lemma UnfinishedCallReadsAsFailure(log: seq<Op>)
    requires |log| == 3 && log[0] == Sent(Direct) && log[1] == Reported(Failure) && log[2] == Sample(Mesh, false, false)
    ensures Tallied(log).endFailure == 0 && EndToEndCounts(Tallied(log)) == Counts(0, 1)
  {
    var sent := ZERO.(routes := Via(NOWHERE, Direct));
    var reported := sent.(heard := Told(SILENCE, Failure));
    var failed := reported.(meshFailure := 1);
    assert Bump(ZERO, log[0]) == sent;
    assert Bump(sent, log[1]) == reported;
    assert Bump(reported, log[2]) == failed;
    TallyOfThree(log, failed);
  }
}
