/** Join write ordering over whole runs, through crashes and changes of leader (src/join_coordinator.rs). */
module JoinRuns {
  import opened JoinProtocol
  import opened JoinSession

  lemma {:induction false} EveryRunKeepsInv(session: Session, index: nat, es: seq<Event>)
    requires session.status.Reserved? && CanRun(Start(session, index), es)
    ensures Inv(After(Start(session, index), es))
    decreases |es|
  {
    if es != [] {
      EveryRunKeepsInv(session, index, es[..|es| - 1]);
      StepKeepsInv(After(Start(session, index), es[..|es| - 1]), es[|es| - 1]);
    }
  }

  /**
   * In every reachable state: an operation that has got as far as its learner never has a
   * reserved session, a completed one has a consumed session and an expired one an expired
   * session; and a consumed session went through LearnerRegistered for a node that was made a
   * voter.
   */
  lemma WriteOrderSurvivesCrashes(session: Session, index: nat, es: seq<Event>)
    requires session.status.Reserved? && CanRun(Start(session, index), es)
    ensures var s := After(Start(session, index), es);
            && s.history != []
            && var c := Now(s);
               && (forall i :: 0 <= i < |c.operations| ==>
                     var p := c.operations[i].phase;
                     && (p.LearnerSeen? || p.VoterPromoted? || p.Completed? ==> !c.session.status.Reserved?)
                     && (p.VoterPromoted? ==> c.wasVoter)
                     && (p.Completed? ==> c.session.status.Consumed?)
                     && (p.Lapsed? ==> c.session.status.Expired?))
               && (c.session.status.Consumed? ==> c.wasRegistered && c.wasVoter)
  {
    EveryRunKeepsInv(session, index, es);
    var s := After(Start(session, index), es);
    var c := Now(s);
    assert Safe(c);
    forall i | 0 <= i < |c.operations|
      ensures var p := c.operations[i].phase;
              && (p.LearnerSeen? || p.VoterPromoted? || p.Completed? ==> !c.session.status.Reserved?)
              && (p.VoterPromoted? ==> c.wasVoter)
              && (p.Completed? ==> c.session.status.Consumed?)
              && (p.Lapsed? ==> c.session.status.Expired?)
    {
      assert PhaseHolds(c, c.operations[i].phase);
    }
  }

  // ----- nothing moves backwards

  lemma StepKeepsHistory(s: System, e: Event)
    requires CanDo(s, e)
    ensures s.history <= Do(s, e).history
  {
  }

  lemma {:induction false} RunKeepsHistory(s: System, es: seq<Event>, n: nat)
    requires CanRun(s, es) && n <= |es|
    ensures CanRun(s, es[..n]) && After(s, es[..n]).history <= After(s, es).history
    decreases |es|
  {
    if n == |es| {
      assert es[..n] == es;
    } else {
      var rest := es[..|es| - 1];
      RunKeepsHistory(s, rest, n);
      assert rest[..n] == es[..n];
      StepKeepsHistory(After(s, rest), es[|es| - 1]);
    }
  }

  /**
   * From any moment of a run to any later one, the session keeps its identity, its required log
   * index never decreases, and once consumed or expired it stays so.
   */
  lemma SessionsOnlyMoveForward(session: Session, index: nat, es: seq<Event>, n: nat)
    requires session.status.Reserved? && CanRun(Start(session, index), es) && n <= |es|
    ensures CanRun(Start(session, index), es[..n])
    ensures var s, s' := After(Start(session, index), es[..n]), After(Start(session, index), es);
            && s.history != [] && s'.history != []
            && var a, b := Now(s).session, Now(s').session;
               && a.identity == b.identity && a.required <= b.required
               && (!IsPending(a.status) ==> b.status == a.status)
               && (b.status.Reserved? ==> a.status.Reserved?)
  {
    var start := Start(session, index);
    RunKeepsHistory(start, es, n);
    EveryRunKeepsInv(session, index, es[..n]);
    EveryRunKeepsInv(session, index, es);
    var s, s' := After(start, es[..n]), After(start, es);
    assert s'.history[|s.history| - 1] == Now(s);
    assert Precedes(s'.history[|s.history| - 1], Now(s'));
  }

  // ----- is the node still a voter when the session is consumed?

  /** An expiry whose operation and metrics both show a voter that is still one. */
  predicate TakesVote(s: System, e: Event)
    requires CanDo(s, e)
  {
    && e.Expire? && Now(s).role.Voter? && s.history[e.metrics].role.Voter?
    && PlaceOf(s, e.who).operation.expected.Voter?
  }

  /** A promotion that goes through. */
  predicate GivesVote(s: System, e: Event)
    requires CanDo(s, e)
  {
    && e.Promote? && Active(s.history[e.operation]).Some? && !Now(s).role.Absent?
    && var seen := s.history[e.metrics].role;
       !seen.Absent? && seen == s.history[e.operation].operations[Active(s.history[e.operation]).value].expected
  }

  lemma ExpireVotes(s: System, w: nat, m: nat)
    requires CanDo(s, Expire(w, m))
    ensures Do(s, Expire(w, m)).history != []
    ensures Now(Do(s, Expire(w, m))).voteRemoved <==> Now(s).voteRemoved || TakesVote(s, Expire(w, m))
  {
    StepKeepsHistory(s, Expire(w, m));
  }

  lemma PromoteVotes(s: System, w: nat, o: nat, m: nat)
    requires CanDo(s, Promote(w, o, m))
    ensures Do(s, Promote(w, o, m)).history != []
    ensures Now(Do(s, Promote(w, o, m))).voteRemoved <==> Now(s).voteRemoved && !GivesVote(s, Promote(w, o, m))
  {
    StepKeepsHistory(s, Promote(w, o, m));
  }

  lemma OtherVotes(s: System, e: Event)
    requires CanDo(s, e) && !e.Expire? && !e.Promote?
    ensures Do(s, e).history != [] && Now(Do(s, e)).voteRemoved == Now(s).voteRemoved
  {
    StepKeepsHistory(s, e);
  }

  /** What each step does to the vote: only such an expiry takes it, only such a promotion restores it. */
  lemma VoteIsRemovedIff(s: System, e: Event)
    requires CanDo(s, e)
    ensures Do(s, e).history != []
    ensures Now(Do(s, e)).voteRemoved <==> TakesVote(s, e) || (Now(s).voteRemoved && !GivesVote(s, e))
  {
    match e {
      case Expire(w, m) => ExpireVotes(s, w, m);
      case Promote(w, o, m) => PromoteVotes(s, w, o, m);
      case _ => OtherVotes(s, e);
    }
  }

  /** Some expiry of the run took the vote, and no later promotion gave it back. */
  predicate VoteTaken(s: System, es: seq<Event>)
    requires CanRun(s, es)
    decreases |es|
  {
    es != [] &&
    var s', e := After(s, es[..|es| - 1]), es[|es| - 1];
    (TakesVote(s', e) || (!GivesVote(s', e) && VoteTaken(s, es[..|es| - 1])))
  }

  lemma {:induction false} VoteTakenIsRemoved(session: Session, index: nat, es: seq<Event>)
    requires CanRun(Start(session, index), es)
    ensures After(Start(session, index), es).history != []
    ensures Now(After(Start(session, index), es)).voteRemoved <==> VoteTaken(Start(session, index), es)
    decreases |es|
  {
    if es != [] {
      VoteTakenIsRemoved(session, index, es[..|es| - 1]);
      VoteIsRemovedIff(After(Start(session, index), es[..|es| - 1]), es[|es| - 1]);
    }
  }

  /** A consumed session's node is a voter if and only if no expiry of the run took its vote. */
  lemma ConsumedNodeIsVoterIff(session: Session, index: nat, es: seq<Event>)
    requires session.status.Reserved? && CanRun(Start(session, index), es)
    ensures var s := After(Start(session, index), es);
            && s.history != []
            && (Now(s).session.status.Consumed? ==> (Now(s).role.Voter? <==> !VoteTaken(Start(session, index), es)))
  {
    EveryRunKeepsInv(session, index, es);
    VoteTakenIsRemoved(session, index, es);
    assert Safe(Now(After(Start(session, index), es)));
  }

  // ----- when that cannot happen

  /** The metrics of a look are no older than the membership that its operation expects. */
  predicate FreshLook(s: System, e: Event)
    requires CanDo(s, e)
  {
    e.Look? ==>
      (s.history[e.operation].operations[Active(s.history[e.operation]).value].expected.Voter? ==>
         s.history[e.metrics].role.Voter?)
  }

  predicate AllFresh(s: System, es: seq<Event>)
    requires CanRun(s, es)
    decreases |es|
  {
    es == [] || (AllFresh(s, es[..|es| - 1]) && FreshLook(After(s, es[..|es| - 1]), es[|es| - 1]))
  }

  /** No coordinator expects a voter that it did not see. */
  predicate LooksAreFresh(s: System) {
    forall w :: w in s.places ==>
      (s.places[w].Looked? && s.places[w].operation.expected.Voter? ==> s.places[w].view.Voter?)
  }

  lemma OnlyLooksTakeViews(s: System, e: Event, w: nat)
    requires CanDo(s, e) && w in Do(s, e).places && Do(s, e).places[w].Looked?
    ensures (w in s.places && s.places[w] == Do(s, e).places[w]) || (e.Look? && e.who == w)
  {
    if !e.Look? {
      match e {
        case SeeVoter(_, _, _) =>
        case Expire(_, _) =>
        case AddLearner(_, _) =>
        case Notice(_, _) =>
        case Confirm(_, _, _) =>
        case Promote(_, _, _) =>
        case _ =>
      }
    }
  }

  lemma StepKeepsFresh(s: System, e: Event)
    requires LooksAreFresh(s) && CanDo(s, e) && FreshLook(s, e)
    ensures LooksAreFresh(Do(s, e))
  {
    var s' := Do(s, e);
    forall w | w in s'.places && s'.places[w].Looked? && s'.places[w].operation.expected.Voter?
      ensures s'.places[w].view.Voter?
    {
      OnlyLooksTakeViews(s, e, w);
    }
  }

  lemma FreshStepTakesNoVote(s: System, e: Event)
    requires LooksAreFresh(s) && CanDo(s, e)
    ensures !TakesVote(s, e)
  {
  }

  lemma {:induction false} FreshRunsTakeNoVote(s: System, es: seq<Event>)
    requires LooksAreFresh(s) && CanRun(s, es) && AllFresh(s, es)
    ensures LooksAreFresh(After(s, es)) && !VoteTaken(s, es)
    decreases |es|
  {
    if es != [] {
      FreshRunsTakeNoVote(s, es[..|es| - 1]);
      StepKeepsFresh(After(s, es[..|es| - 1]), es[|es| - 1]);
      FreshStepTakesNoVote(After(s, es[..|es| - 1]), es[|es| - 1]);
    }
  }

  /** In particular, while no look trusts metrics older than its operation. */
  lemma ConsumedNodeIsVoter(session: Session, index: nat, es: seq<Event>)
    requires session.status.Reserved? && CanRun(Start(session, index), es) && AllFresh(Start(session, index), es)
    ensures var s := After(Start(session, index), es);
            s.history != [] && (Now(s).session.status.Consumed? ==> Now(s).role.Voter?)
  {
    FreshRunsTakeNoVote(Start(session, index), es);
    ConsumedNodeIsVoterIff(session, index, es);
  }

  // ----- and when a look does trust older metrics

  lemma OneMoreEvent(s: System, es: seq<Event>, e: Event)
    requires CanRun(s, es) && CanDo(After(s, es), e)
    ensures CanRun(s, es + [e]) && After(s, es + [e]) == Do(After(s, es), e)
  {
    assert (es + [e])[..|es|] == es;
  }

  lemma StaleForGood(s: System, es: seq<Event>, e: Event)
    requires CanRun(s, es) && CanDo(After(s, es), e) && (!AllFresh(s, es) || !FreshLook(After(s, es), e))
    ensures CanRun(s, es + [e]) && !AllFresh(s, es + [e])
  {
    assert (es + [e])[..|es|] == es;
  }

  /** Coordinator 0 adds the learner. */
  lemma AddedRun(session: Session, index: nat) returns (es: seq<Event>)
    requires session.status.Reserved?
    ensures CanRun(Start(session, index), es)
    ensures var s := After(Start(session, index), es);
            && |s.history| == 2 && Now(s).operations == [Operation(Prepared, Absent)]
            && Now(s).role.Learner? && Now(s).index == index + 1 && Now(s).session == session
            && s.places == map[0 := Noticing(session, Operation(Prepared, Absent))]
  {
    var start := Start(session, index);
    es := [];
    OneMoreEvent(start, es, Look(0, 0, 0, 0));
    es := es + [Look(0, 0, 0, 0)];
    OneMoreEvent(start, es, AddLearner(0, 0));
    es := es + [AddLearner(0, 0)];
  }

  /** It records the learner in the session. */
  lemma RegisteredRun(session: Session, index: nat) returns (es: seq<Event>)
    requires session.status.Reserved?
    ensures CanRun(Start(session, index), es)
    ensures var s := After(Start(session, index), es);
            && |s.history| == 3 && Now(s).operations == [Operation(Prepared, Absent)]
            && Now(s).role.Learner? && Now(s).session == Registered(session, index + 1)
            && s.places == map[0 := Recorded(Now(s).session, Operation(Prepared, Absent))]
  {
    var start := Start(session, index);
    es := AddedRun(session, index);
    OneMoreEvent(start, es, Notice(0, 1));
    es := es + [Notice(0, 1)];
    OneMoreEvent(start, es, WriteRegistered(0));
    es := es + [WriteRegistered(0)];
  }

  /** It records the learner in the operation. */
  lemma ConfirmedRun(session: Session, index: nat) returns (es: seq<Event>)
    requires session.status.Reserved?
    ensures CanRun(Start(session, index), es)
    ensures var s := After(Start(session, index), es);
            && |s.history| == 4 && Now(s).operations == [Operation(LearnerSeen, Learner)]
            && Now(s).role.Learner? && Now(s).session == Registered(session, index + 1)
            && s.places == map[0 := Promoting(Now(s).session)]
  {
    es := RegisteredRun(session, index);
    OneMoreEvent(Start(session, index), es, Confirm(0, 2, 2));
    es := es + [Confirm(0, 2, 2)];
  }

  /** It promotes the learner. */
  lemma VotingRun(session: Session, index: nat) returns (es: seq<Event>)
    requires session.status.Reserved?
    ensures CanRun(Start(session, index), es)
    ensures var s := After(Start(session, index), es);
            && |s.history| == 5 && s.history[3].role.Learner?
            && Now(s).operations == [Operation(LearnerSeen, Learner)]
            && Now(s).role.Voter? && Now(s).session == Registered(session, index + 1)
            && s.places == map[0 := Promoted(Now(s).session)]
  {
    es := ConfirmedRun(session, index);
    OneMoreEvent(Start(session, index), es, Promote(0, 3, 3));
    es := es + [Promote(0, 3, 3)];
  }

  /** It records the promotion in the operation; only the session is left to consume. */
  lemma PromotedRun(session: Session, index: nat) returns (es: seq<Event>)
    requires session.status.Reserved?
    ensures CanRun(Start(session, index), es)
    ensures var s := After(Start(session, index), es);
            && |s.history| == 6 && s.history[3].role.Learner?
            && Now(s).operations == [Operation(VoterPromoted, Voter)]
            && Now(s).role.Voter? && Now(s).session == Registered(session, index + 1)
            && s.places == map[0 := Consuming(Now(s).session)]
  {
    es := VotingRun(session, index);
    OneMoreEvent(Start(session, index), es, RecordPromotion(0, 4, 4));
    es := es + [RecordPromotion(0, 4, 4)];
  }

  /** Coordinator 1 looks with metrics from before the promotion. */
  lemma StaleRun(session: Session, index: nat) returns (es: seq<Event>)
    requires session.status.Reserved?
    ensures CanRun(Start(session, index), es) && !AllFresh(Start(session, index), es)
    ensures var s := After(Start(session, index), es);
            && |s.history| == 6 && Now(s).role.Voter? && Now(s).session == Registered(session, index + 1)
            && s.places == map[0 := Consuming(Now(s).session),
                               1 := Looked(Now(s).session, 0, Operation(VoterPromoted, Voter), Learner)]
  {
    var start := Start(session, index);
    es := PromotedRun(session, index);
    OneMoreEvent(start, es, Look(1, 5, 5, 3));
    StaleForGood(start, es, Look(1, 5, 5, 3));
    es := es + [Look(1, 5, 5, 3)];
  }

  /** Past the deadline, it reads metrics that match its operation and removes the voter. */
  lemma RemovedRun(session: Session, index: nat) returns (es: seq<Event>)
    requires session.status.Reserved?
    ensures CanRun(Start(session, index), es) && !AllFresh(Start(session, index), es)
    ensures var s := After(Start(session, index), es);
            && |s.history| == 7 && Now(s).role.Absent? && Now(s).session == Registered(session, index + 1)
            && PlaceOf(s, 0) == Consuming(Now(s).session)
  {
    var start := Start(session, index);
    es := StaleRun(session, index);
    OneMoreEvent(start, es, Expire(1, 5));
    StaleForGood(start, es, Expire(1, 5));
    es := es + [Expire(1, 5)];
  }

  /** Coordinator 0 then consumes the session of a node that is no longer a member. */
  lemma ConsumedNodeMayBeGone(session: Session, index: nat) returns (es: seq<Event>)
    requires session.status.Reserved?
    ensures CanRun(Start(session, index), es) && !AllFresh(Start(session, index), es)
    ensures var s := After(Start(session, index), es);
            s.history != [] && Now(s).session.status.Consumed? && Now(s).role.Absent?
  {
    var start := Start(session, index);
    es := RemovedRun(session, index);
    OneMoreEvent(start, es, WriteConsumed(0));
    StaleForGood(start, es, WriteConsumed(0));
    es := es + [WriteConsumed(0)];
  }
}
