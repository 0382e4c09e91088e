/** The join session and its membership operation, as the replicated state accepts them
 * (src/join_session.rs, src/state/membership_operation.rs). */
module JoinSession {
  import opened Words

  datatype Status = Reserved | LearnerRegistered | Consumed | Expired

  predicate IsPending(s: Status) {
    s.Reserved? || s.LearnerRegistered?
  }

  /** `JoinSessionStatus::may_transition_to`. */
  predicate MayBecome(s: Status, next: Status) {
    match s
    case Reserved => next.Reserved? || next.LearnerRegistered? || next.Expired?
    case LearnerRegistered => next.LearnerRegistered? || next.Consumed? || next.Expired?
    case Consumed => next.Consumed?
    case Expired => next.Expired?
  }

  /** The fields a session keeps for life. */
  datatype Identity = Identity(nodeId: string, fingerprint: string, certificate: string, tokenExpires: string,
                               deadline: string)

  datatype Session = Session(identity: Identity, required: nat, status: Status)

  /** `validate_successor`. */
  predicate ValidSuccessor(current: Session, next: Session) {
    && current.identity == next.identity
    && MayBecome(current.status, next.status)
    && current.required <= next.required
  }

  /** `learner_registered`. */
  function Registered(s: Session, index: nat): Session {
    s.(required := Max(s.required, index), status := LearnerRegistered)
  }

  datatype Phase = Prepared | LearnerSeen | VoterPromoted | MembershipRemoved | Completed | Blocked | Lapsed

  predicate IsTerminal(p: Phase) {
    p.Completed? || p.Blocked? || p.Lapsed?
  }

  /** `MembershipOperationPhase::may_transition_to`. */
  predicate MayMove(p: Phase, next: Phase) {
    || p == next
    || match p
       case Prepared => next.LearnerSeen? || next.MembershipRemoved? || next.Blocked? || next.Lapsed?
       case LearnerSeen => next.VoterPromoted? || next.Blocked? || next.Lapsed?
       case VoterPromoted => next.Completed? || next.Blocked?
       case MembershipRemoved => next.Completed? || next.Blocked?
       case _ => false
  }

  // ----- what any chain of accepted writes keeps

  predicate StatusReaches(a: Status, b: Status) {
    a == b || (a.Reserved? && !b.Reserved?) || (a.LearnerRegistered? && !IsPending(b))
  }

  /** `b` can follow `a` after any number of accepted writes. */
  predicate SessionReaches(a: Session, b: Session) {
    a.identity == b.identity && a.required <= b.required && StatusReaches(a.status, b.status)
  }
}
