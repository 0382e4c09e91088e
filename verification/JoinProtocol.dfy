/**
 * The join coordinator (src/join_coordinator.rs): a series of writes to the replicated state and
 * to the Raft membership, issued by any number of coordinators on stale reads, where a crash or
 * a change of leader can fall between any two of them.
 *
 * Raft is a facade: writes are applied one after another to one cluster state, a session write
 * only when `validate_successor` accepts it and a phase write only when `may_transition_to`
 * does; every read of the store or of the metrics returns some state the cluster once had.
 */
module JoinProtocol {
  import opened JoinSession
  import opened Words

  // ----- the cluster

  /** The joining node's part in the committed membership; with it stands the whole membership. */
  datatype Role = Absent | Learner | Voter

  /** A Join operation; `expected` is the membership recorded with its phase. */
  datatype Operation = Operation(phase: Phase, expected: Role)

  /**
   * `operations` in the order they began, at most the last one active. The last three fields
   * only remember: whether the session was ever LearnerRegistered, the node ever a voter, and
   * its vote taken away since.
   */
  datatype Cluster = Cluster(session: Session, operations: seq<Operation>, role: Role, index: nat,
                             wasRegistered: bool, wasVoter: bool, voteRemoved: bool)

  /** `active_membership_operation`. */
  function Active(c: Cluster): Option<nat> {
    if c.operations != [] && !IsTerminal(c.operations[|c.operations| - 1].phase) then Some(|c.operations| - 1) else None
  }

  function WithSession(c: Cluster, s: Session): Cluster {
    c.(session := s, wasRegistered := c.wasRegistered || s.status.LearnerRegistered?)
  }

  function WithLearner(c: Cluster): Cluster {
    if c.role.Absent? then c.(role := Learner) else c
  }

  function WithVoter(c: Cluster): Cluster {
    c.(role := Voter, wasVoter := true, voteRemoved := false)
  }

  function WithoutNode(c: Cluster): Cluster {
    c.(role := Absent, voteRemoved := c.voteRemoved || c.role.Voter?)
  }

  predicate AcceptsPhase(c: Cluster, i: nat, phase: Phase) {
    i < |c.operations| && MayMove(c.operations[i].phase, phase)
  }

  function WithPhase(c: Cluster, i: nat, op: Operation): Cluster
    requires i < |c.operations|
  {
    c.(operations := c.operations[i := op])
  }

  // ----- the coordinators

  /** Where a coordinator stands, with the local copies it took. */
  datatype Place =
    | Idle
    | Looked(session: Session, at: nat, operation: Operation, view: Role)
    | Noticing(session: Session, operation: Operation)
    | Recording(session: Session, operation: Operation)
    | Recorded(session: Session, operation: Operation)
    | Promoting(session: Session)
    | Promoted(session: Session)
    | Consuming(session: Session)
    | Completing
    | Expiring(session: Session)
    | Closing

  datatype System = System(history: seq<Cluster>, places: map<nat, Place>)

  function Now(s: System): Cluster
    requires s.history != []
  {
    s.history[|s.history| - 1]
  }

  function PlaceOf(s: System, who: nat): Place {
    if who in s.places then s.places[who] else Idle
  }

  /** The indices name the past states that the reads of a step return. */
  datatype Event =
    | BeginAgain
    | OutsideLearner
    | OutsideBlock
    | Look(who: nat, session: nat, operation: nat, metrics: nat)
    | SeeVoter(who: nat, operation: nat, metrics: nat)
    | Expire(who: nat, metrics: nat)
    | AddLearner(who: nat, metrics: nat)
    | Notice(who: nat, metrics: nat)
    | WriteRegistered(who: nat)
    | Confirm(who: nat, operation: nat, metrics: nat)
    | Promote(who: nat, operation: nat, metrics: nat)
    | RecordPromotion(who: nat, operation: nat, metrics: nat)
    | WriteConsumed(who: nat)
    | Complete(who: nat, operation: nat, metrics: nat)
    | WriteExpired(who: nat)
    | Close(who: nat, operation: nat, metrics: nat)
    | Crash(who: nat)

  /** A committed write takes one more entry of the log. */
  function Committed(s: System, c: Cluster): System {
    s.(history := s.history + [c.(index := c.index + 1)])
  }

  /** A write, and where it leaves the coordinator. */
  function Wrote(s: System, c: Cluster, who: nat, place: Place): System {
    Went(Committed(s, c), who, place)
  }

  function Went(s: System, who: nat, place: Place): System {
    s.(places := s.places[who := place])
  }

  /** `block_membership_operation`: a rejected write leaves the operation as it was. */
  function BlockedNow(c: Cluster, i: nat): Cluster {
    if AcceptsPhase(c, i, Blocked) then WithPhase(c, i, Operation(Blocked, c.operations[i].expected)) else c
  }

  /** `transition_join_operation`: without an active operation there is nothing to write. */
  function Transitioned(s: System, operation: nat, metrics: nat, phase: Phase, who: nat, place: Place): System
    requires operation < |s.history| && metrics < |s.history|
  {
    match Active(s.history[operation])
    case None => Went(s, who, place)
    case Some(i) =>
      if AcceptsPhase(Now(s), i, phase) then
        Wrote(s, WithPhase(Now(s), i, Operation(phase, s.history[metrics].role)), who, place)
      else Went(s, who, Idle)
  }

  /** A session write carried by UpsertNode or DeleteNode. */
  function SessionWritten(s: System, next: Session, who: nat, place: Place): System
    requires s.history != []
  {
    if ValidSuccessor(Now(s).session, next) then Wrote(s, WithSession(Now(s), next), who, place)
    else Went(s, who, Idle)
  }

  predicate Reads(s: System, i: nat) {
    i < |s.history|
  }

  /** The learner is there already, or the session is past its registration. */
  predicate MayNotice(p: Place)
    requires p.Looked?
  {
    p.view.Learner? || (p.view.Absent? && !p.session.status.Reserved?)
  }

  predicate CanDo(s: System, e: Event) {
    && s.history != []
    && match e
       case BeginAgain => Active(Now(s)).None? && IsPending(Now(s).session.status)
       case OutsideLearner => true
       case OutsideBlock => Active(Now(s)).Some?
       case Look(w, k, o, m) =>
         && PlaceOf(s, w).Idle? && Reads(s, k) && Reads(s, o) && Reads(s, m)
         && IsPending(s.history[k].session.status) && Active(s.history[o]).Some?
       case SeeVoter(w, o, m) => PlaceOf(s, w).Looked? && PlaceOf(s, w).view.Voter? && Reads(s, o) && Reads(s, m)
       case Expire(w, m) => PlaceOf(s, w).Looked? && !PlaceOf(s, w).view.Voter? && Reads(s, m)
       case AddLearner(w, m) =>
         && PlaceOf(s, w).Looked? && PlaceOf(s, w).view.Absent? && PlaceOf(s, w).session.status.Reserved? && Reads(s, m)
       case Notice(w, m) =>
         && Reads(s, m)
         && (PlaceOf(s, w).Noticing? || (PlaceOf(s, w).Looked? && MayNotice(PlaceOf(s, w))))
       case WriteRegistered(w) => PlaceOf(s, w).Recording?
       case Confirm(w, o, m) => PlaceOf(s, w).Recorded? && Reads(s, o) && Reads(s, m)
       case Promote(w, o, m) => PlaceOf(s, w).Promoting? && Reads(s, o) && Reads(s, m)
       case RecordPromotion(w, o, m) => PlaceOf(s, w).Promoted? && Reads(s, o) && Reads(s, m)
       case WriteConsumed(w) => PlaceOf(s, w).Consuming?
       case Complete(w, o, m) => PlaceOf(s, w).Completing? && Reads(s, o) && Reads(s, m)
       case WriteExpired(w) => PlaceOf(s, w).Expiring?
       case Close(w, o, m) => PlaceOf(s, w).Closing? && Reads(s, o) && Reads(s, m)
       case Crash(_) => true
  }

  // ----- the steps of one coordinator

  /** The node shows up as a voter: catch up with the promotion, then consume the session. */
  function VoterSeen(s: System, w: nat, p: Place, o: nat, m: nat): System
    requires s.history != [] && p.Looked? && o < |s.history| && m < |s.history|
  {
    match p.operation.phase
    case LearnerSeen => Transitioned(s, o, m, VoterPromoted, w, Consuming(p.session))
    case VoterPromoted => Went(s, w, Consuming(p.session))
    case _ => Wrote(s, BlockedNow(Now(s), p.at), w, Idle)
  }

  /** Past the deadline: unless the membership changed, take the node out of it. */
  function DeadlinePassed(s: System, w: nat, p: Place, m: nat): System
    requires s.history != [] && p.Looked? && m < |s.history|
  {
    var seen := s.history[m].role;
    if seen != p.operation.expected then Wrote(s, BlockedNow(Now(s), p.at), w, Idle)
    else if seen.Absent? || Now(s).role.Absent? then Went(s, w, Expiring(p.session))
    else if seen.Learner? && Now(s).role.Voter? then Went(s, w, Idle)
    else Wrote(s, WithoutNode(Now(s)), w, Expiring(p.session))
  }

  /** Register the learner, unless the membership changed or the node is already there. */
  function LearnerAdded(s: System, w: nat, p: Place, m: nat): System
    requires s.history != [] && p.Looked? && m < |s.history|
  {
    var seen := s.history[m].role;
    if seen != p.operation.expected then Wrote(s, BlockedNow(Now(s), p.at), w, Idle)
    else if !seen.Absent? then Went(s, w, Idle)
    else Wrote(s, WithLearner(Now(s)), w, Noticing(p.session, p.operation))
  }

  /** A reserved session waits until the metrics show the learner; a registered one is past that. */
  function LearnerNoticed(s: System, w: nat, session: Session, operation: Operation, m: nat): System
    requires m < |s.history|
  {
    if !session.status.Reserved? then Went(s, w, Recorded(session, operation))
    else if s.history[m].role.Absent? then Went(s, w, Idle)
    else Went(s, w, Recording(Registered(session, s.history[m].index), operation))
  }

  /** Only after the session says so may the operation say that the learner is registered. */
  function LearnerConfirmed(s: System, w: nat, p: Place, o: nat, m: nat): System
    requires s.history != [] && p.Recorded? && o < |s.history| && m < |s.history|
  {
    match p.operation.phase
    case Prepared =>
      if s.history[m].role.Absent? then Went(s, w, Idle)
      else Transitioned(s, o, m, LearnerSeen, w, Promoting(p.session))
    case LearnerSeen => Went(s, w, Promoting(p.session))
    case _ => Went(s, w, Idle)
  }

  /** Promote the learner, unless the membership changed meanwhile. */
  function LearnerPromoted(s: System, w: nat, p: Place, o: nat, m: nat): System
    requires s.history != [] && p.Promoting? && o < |s.history| && m < |s.history|
  {
    match Active(s.history[o])
    case None => Went(s, w, Idle)
    case Some(i) =>
      var seen := s.history[m].role;
      if seen != s.history[o].operations[i].expected || seen.Absent? then Wrote(s, BlockedNow(Now(s), i), w, Idle)
      else if Now(s).role.Absent? then Went(s, w, Idle)
      else Wrote(s, WithVoter(Now(s)), w, Promoted(p.session))
  }

  function Do(s: System, e: Event): System
    requires CanDo(s, e)
  {
    match e
    case BeginAgain =>
      var c := Now(s);
      Committed(s, c.(operations := c.operations + [Operation(Prepared, c.role)]))
    case OutsideLearner => Committed(s, WithLearner(Now(s)))
    case OutsideBlock => Committed(s, BlockedNow(Now(s), Active(Now(s)).value))
    case Look(w, k, o, m) =>
      var i := Active(s.history[o]).value;
      Went(s, w, Looked(s.history[k].session, i, s.history[o].operations[i], s.history[m].role))
    case SeeVoter(w, o, m) => VoterSeen(s, w, PlaceOf(s, w), o, m)
    case Expire(w, m) => DeadlinePassed(s, w, PlaceOf(s, w), m)
    case AddLearner(w, m) => LearnerAdded(s, w, PlaceOf(s, w), m)
    case Notice(w, m) =>
      LearnerNoticed(s, w, PlaceOf(s, w).session, PlaceOf(s, w).operation, m)
    case WriteRegistered(w) =>
      var p := PlaceOf(s, w);
      SessionWritten(s, p.session, w, Recorded(p.session, p.operation))
    case Confirm(w, o, m) => LearnerConfirmed(s, w, PlaceOf(s, w), o, m)
    case Promote(w, o, m) => LearnerPromoted(s, w, PlaceOf(s, w), o, m)
    case RecordPromotion(w, o, m) => Transitioned(s, o, m, VoterPromoted, w, Consuming(PlaceOf(s, w).session))
    case WriteConsumed(w) => SessionWritten(s, PlaceOf(s, w).session.(status := Consumed), w, Completing)
    case Complete(w, o, m) => Transitioned(s, o, m, Completed, w, Idle)
    case WriteExpired(w) => SessionWritten(s, PlaceOf(s, w).session.(status := Expired), w, Closing)
    case Close(w, o, m) => Transitioned(s, o, m, Lapsed, w, Idle)
    case Crash(w) => Went(s, w, Idle)
  }

  predicate CanRun(s: System, es: seq<Event>)
    decreases |es|, 0
  {
    es == [] || (CanRun(s, es[..|es| - 1]) && CanDo(After(s, es[..|es| - 1]), es[|es| - 1]))
  }

  function After(s: System, es: seq<Event>): System
    requires CanRun(s, es)
    decreases |es|, 1
  {
    if es == [] then s else Do(After(s, es[..|es| - 1]), es[|es| - 1])
  }

  /** A fresh reservation: one prepared operation, a reserved session, the node not yet a member. */
  function Start(session: Session, index: nat): System {
    System([Cluster(session, [Operation(Prepared, Absent)], Absent, index, false, false, false)], map[])
  }

  // ----- what every reachable cluster satisfies

  /** What each phase of an operation says about the session and the node. */
  predicate PhaseHolds(c: Cluster, p: Phase) {
    match p
    case Prepared => true
    case LearnerSeen => !c.session.status.Reserved?
    case VoterPromoted => !c.session.status.Reserved? && c.wasVoter
    case Completed => c.session.status.Consumed? && c.wasVoter
    case Lapsed => c.session.status.Expired?
    case Blocked => true
    case MembershipRemoved => false
  }

  predicate Safe(c: Cluster) {
    && (forall i :: 0 <= i < |c.operations| ==> PhaseHolds(c, c.operations[i].phase))
    && (c.session.status.LearnerRegistered? ==> c.wasRegistered)
    && (c.session.status.Consumed? ==> c.wasRegistered && c.wasVoter)
    && (c.role.Voter? <==> c.wasVoter && !c.voteRemoved)
  }

  /** `b` may come after `a`. */
  predicate Precedes(a: Cluster, b: Cluster) {
    && SessionReaches(a.session, b.session) && a.index <= b.index
    && (a.wasRegistered ==> b.wasRegistered) && (a.wasVoter ==> b.wasVoter)
  }

  /** What a coordinator may rely on at each place, however stale its copies. */
  predicate PlaceHolds(p: Place, c: Cluster) {
    match p
    case Looked(session, _, operation, view) =>
      && SessionReaches(session, c.session)
      && (view.Voter? || operation.phase.VoterPromoted? ==> c.wasVoter)
    case Noticing(session, _) => SessionReaches(session, c.session)
    case Recording(session, _) => session.status.LearnerRegistered?
    case Recorded(_, _) => !c.session.status.Reserved?
    case Promoted(_) => c.wasVoter
    case Consuming(_) => c.wasVoter
    case Completing => c.session.status.Consumed?
    case Closing => c.session.status.Expired?
    case _ => true
  }

  predicate Inv(s: System) {
    && s.history != []
    && (forall i :: 0 <= i < |s.history| ==> Safe(s.history[i]) && Precedes(s.history[i], Now(s)))
    && (forall w :: w in s.places ==> PlaceHolds(s.places[w], Now(s)))
  }

  lemma WentKeepsInv(s: System, w: nat, p: Place)
    requires Inv(s) && PlaceHolds(p, Now(s))
    ensures Inv(Went(s, w, p))
  {
  }

  lemma CommittedKeepsInv(s: System, c: Cluster)
    requires Inv(s) && Safe(c) && Precedes(Now(s), c)
    ensures Inv(Committed(s, c))
  {
    var s' := Committed(s, c);
    assert Now(s') == c.(index := c.index + 1);
    forall w | w in s'.places
      ensures PlaceHolds(s'.places[w], Now(s'))
    {
      assert PlaceHolds(s.places[w], Now(s));
    }
  }

  lemma WroteKeepsInv(s: System, c: Cluster, w: nat, p: Place)
    requires Inv(s) && Safe(c) && Precedes(Now(s), c) && PlaceHolds(p, c)
    ensures Inv(Wrote(s, c, w, p))
  {
    CommittedKeepsInv(s, c);
    assert Now(Committed(s, c)) == c.(index := c.index + 1);
    WentKeepsInv(Committed(s, c), w, p);
  }

  // ----- each kind of write

  lemma PhaseIsSafe(c: Cluster, i: nat, op: Operation)
    requires Safe(c) && i < |c.operations| && PhaseHolds(c, op.phase)
    ensures Safe(WithPhase(c, i, op)) && Precedes(c, WithPhase(c, i, op))
  {
  }

  lemma BlockIsSafe(c: Cluster, i: nat)
    requires Safe(c)
    ensures Safe(BlockedNow(c, i)) && Precedes(c, BlockedNow(c, i))
  {
    if AcceptsPhase(c, i, Blocked) {
      PhaseIsSafe(c, i, Operation(Blocked, c.operations[i].expected));
    }
  }

  lemma SessionIsSafe(c: Cluster, next: Session)
    requires Safe(c) && ValidSuccessor(c.session, next) && (next.status.Consumed? ==> c.wasVoter)
    ensures Safe(WithSession(c, next)) && Precedes(c, WithSession(c, next))
  {
    var c' := WithSession(c, next);
    forall i | 0 <= i < |c'.operations|
      ensures PhaseHolds(c', c'.operations[i].phase)
    {
      assert PhaseHolds(c, c.operations[i].phase);
    }
  }

  lemma RoleIsSafe(c: Cluster)
    requires Safe(c)
    ensures Safe(WithLearner(c)) && Precedes(c, WithLearner(c))
    ensures Safe(WithVoter(c)) && Precedes(c, WithVoter(c))
    ensures Safe(WithoutNode(c)) && Precedes(c, WithoutNode(c))
  {
    forall i | 0 <= i < |c.operations|
      ensures PhaseHolds(WithLearner(c), c.operations[i].phase)
      ensures PhaseHolds(WithVoter(c), c.operations[i].phase)
      ensures PhaseHolds(WithoutNode(c), c.operations[i].phase)
    {
      assert PhaseHolds(c, c.operations[i].phase);
    }
  }

  lemma BeginIsSafe(c: Cluster)
    requires Safe(c)
    ensures Safe(c.(operations := c.operations + [Operation(Prepared, c.role)]))
    ensures Precedes(c, c.(operations := c.operations + [Operation(Prepared, c.role)]))
  {
    var c' := c.(operations := c.operations + [Operation(Prepared, c.role)]);
    forall i | 0 <= i < |c'.operations|
      ensures PhaseHolds(c', c'.operations[i].phase)
    {
      if i < |c.operations| {
        assert PhaseHolds(c, c.operations[i].phase);
      }
    }
  }

  // ----- each kind of step

  /** Recording a phase is safe when the phase is reached and tells the truth. */
  lemma TransitionKeepsInv(s: System, o: nat, m: nat, phase: Phase, w: nat, p: Place)
    requires Inv(s) && o < |s.history| && m < |s.history| && PlaceHolds(p, Now(s))
    requires phase.LearnerSeen? ==> !Now(s).session.status.Reserved?
    requires phase.VoterPromoted? ==> Now(s).wasVoter
    requires phase.Completed? ==> Now(s).session.status.Consumed?
    requires phase.Lapsed? ==> Now(s).session.status.Expired?
    requires !phase.MembershipRemoved?
    requires p.Consuming? || p.Promoting? || p.Idle?
    ensures Inv(Transitioned(s, o, m, phase, w, p))
  {
    var c := Now(s);
    match Active(s.history[o])
    case None => WentKeepsInv(s, w, p);
    case Some(i) =>
      if AcceptsPhase(c, i, phase) {
        assert PhaseHolds(c, c.operations[i].phase);
        var op := Operation(phase, s.history[m].role);
        PhaseIsSafe(c, i, op);
        WroteKeepsInv(s, WithPhase(c, i, op), w, p);
      } else {
        WentKeepsInv(s, w, Idle);
      }
  }

  lemma SessionWriteKeepsInv(s: System, next: Session, w: nat, p: Place)
    requires Inv(s) && (next.status.Consumed? ==> Now(s).wasVoter)
    requires forall c: Cluster :: c.session == next ==> PlaceHolds(p, c)
    ensures Inv(SessionWritten(s, next, w, p))
  {
    var c := Now(s);
    if ValidSuccessor(c.session, next) {
      SessionIsSafe(c, next);
      WroteKeepsInv(s, WithSession(c, next), w, p);
    } else {
      WentKeepsInv(s, w, Idle);
    }
  }

  lemma BlockKeepsInv(s: System, i: nat, w: nat)
    requires Inv(s)
    ensures Inv(Wrote(s, BlockedNow(Now(s), i), w, Idle))
  {
    BlockIsSafe(Now(s), i);
    WroteKeepsInv(s, BlockedNow(Now(s), i), w, Idle);
  }

  lemma LookKeepsInv(s: System, w: nat, k: nat, o: nat, m: nat)
    requires Inv(s) && CanDo(s, Look(w, k, o, m))
    ensures Inv(Do(s, Look(w, k, o, m)))
  {
    var i := Active(s.history[o]).value;
    assert Precedes(s.history[k], Now(s)) && Precedes(s.history[o], Now(s)) && Precedes(s.history[m], Now(s));
    assert PhaseHolds(s.history[o], s.history[o].operations[i].phase);
    assert Safe(s.history[m]);
    WentKeepsInv(s, w, Looked(s.history[k].session, i, s.history[o].operations[i], s.history[m].role));
  }

  lemma SeeVoterKeepsInv(s: System, w: nat, o: nat, m: nat)
    requires Inv(s) && CanDo(s, SeeVoter(w, o, m))
    ensures Inv(Do(s, SeeVoter(w, o, m)))
  {
    var p := PlaceOf(s, w);
    assert PlaceHolds(p, Now(s));
    match p.operation.phase
    case LearnerSeen => TransitionKeepsInv(s, o, m, VoterPromoted, w, Consuming(p.session));
    case VoterPromoted => WentKeepsInv(s, w, Consuming(p.session));
    case _ => BlockKeepsInv(s, p.at, w);
  }

  lemma ExpireKeepsInv(s: System, w: nat, m: nat)
    requires Inv(s) && CanDo(s, Expire(w, m))
    ensures Inv(Do(s, Expire(w, m)))
  {
    var p := PlaceOf(s, w);
    BlockKeepsInv(s, p.at, w);
    WentKeepsInv(s, w, Expiring(p.session));
    WentKeepsInv(s, w, Idle);
    RoleIsSafe(Now(s));
    WroteKeepsInv(s, WithoutNode(Now(s)), w, Expiring(p.session));
  }

  lemma AddLearnerKeepsInv(s: System, w: nat, m: nat)
    requires Inv(s) && CanDo(s, AddLearner(w, m))
    ensures Inv(Do(s, AddLearner(w, m)))
  {
    var p := PlaceOf(s, w);
    assert PlaceHolds(p, Now(s));
    BlockKeepsInv(s, p.at, w);
    WentKeepsInv(s, w, Idle);
    RoleIsSafe(Now(s));
    WroteKeepsInv(s, WithLearner(Now(s)), w, Noticing(p.session, p.operation));
  }

  lemma NoticeKeepsInv(s: System, w: nat, m: nat)
    requires Inv(s) && CanDo(s, Notice(w, m))
    ensures Inv(Do(s, Notice(w, m)))
  {
    var p := PlaceOf(s, w);
    assert PlaceHolds(p, Now(s));
    WentKeepsInv(s, w, Idle);
    if p.session.status.Reserved? {
      WentKeepsInv(s, w, Recording(Registered(p.session, s.history[m].index), p.operation));
    } else {
      WentKeepsInv(s, w, Recorded(p.session, p.operation));
    }
  }

  lemma ConfirmKeepsInv(s: System, w: nat, o: nat, m: nat)
    requires Inv(s) && CanDo(s, Confirm(w, o, m))
    ensures Inv(Do(s, Confirm(w, o, m)))
  {
    var p := PlaceOf(s, w);
    assert PlaceHolds(p, Now(s));
    WentKeepsInv(s, w, Idle);
    WentKeepsInv(s, w, Promoting(p.session));
    TransitionKeepsInv(s, o, m, LearnerSeen, w, Promoting(p.session));
  }

  lemma PromoteKeepsInv(s: System, w: nat, o: nat, m: nat)
    requires Inv(s) && CanDo(s, Promote(w, o, m))
    ensures Inv(Do(s, Promote(w, o, m)))
  {
    var p := PlaceOf(s, w);
    WentKeepsInv(s, w, Idle);
    if Active(s.history[o]).Some? {
      BlockKeepsInv(s, Active(s.history[o]).value, w);
    }
    RoleIsSafe(Now(s));
    WroteKeepsInv(s, WithVoter(Now(s)), w, Promoted(p.session));
  }

  lemma StepKeepsInv(s: System, e: Event)
    requires Inv(s) && CanDo(s, e)
    ensures Inv(Do(s, e))
  {
    match e
    case BeginAgain =>
      BeginIsSafe(Now(s));
      CommittedKeepsInv(s, Now(s).(operations := Now(s).operations + [Operation(Prepared, Now(s).role)]));
    case OutsideLearner =>
      RoleIsSafe(Now(s));
      CommittedKeepsInv(s, WithLearner(Now(s)));
    case OutsideBlock =>
      BlockIsSafe(Now(s), Active(Now(s)).value);
      CommittedKeepsInv(s, BlockedNow(Now(s), Active(Now(s)).value));
    case Look(w, k, o, m) => LookKeepsInv(s, w, k, o, m);
    case SeeVoter(w, o, m) => SeeVoterKeepsInv(s, w, o, m);
    case Expire(w, m) => ExpireKeepsInv(s, w, m);
    case AddLearner(w, m) => AddLearnerKeepsInv(s, w, m);
    case Notice(w, m) => NoticeKeepsInv(s, w, m);
    case WriteRegistered(w) =>
      assert PlaceHolds(PlaceOf(s, w), Now(s));
      SessionWriteKeepsInv(s, PlaceOf(s, w).session, w, Recorded(PlaceOf(s, w).session, PlaceOf(s, w).operation));
    case Confirm(w, o, m) => ConfirmKeepsInv(s, w, o, m);
    case Promote(w, o, m) => PromoteKeepsInv(s, w, o, m);
    case RecordPromotion(w, o, m) =>
      assert PlaceHolds(PlaceOf(s, w), Now(s));
      TransitionKeepsInv(s, o, m, VoterPromoted, w, Consuming(PlaceOf(s, w).session));
    case WriteConsumed(w) =>
      assert PlaceHolds(PlaceOf(s, w), Now(s));
      SessionWriteKeepsInv(s, PlaceOf(s, w).session.(status := Consumed), w, Completing);
    case Complete(w, o, m) =>
      assert PlaceHolds(PlaceOf(s, w), Now(s));
      TransitionKeepsInv(s, o, m, Completed, w, Idle);
    case WriteExpired(w) =>
      SessionWriteKeepsInv(s, PlaceOf(s, w).session.(status := Expired), w, Closing);
    case Close(w, o, m) =>
      assert PlaceHolds(PlaceOf(s, w), Now(s));
      TransitionKeepsInv(s, o, m, Lapsed, w, Idle);
    case Crash(w) => WentKeepsInv(s, w, Idle);
  }
}
