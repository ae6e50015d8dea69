/** From the candidate of a recovery to the review of its incident: a proposed candidate records the verdict
    on its snapshot, and one that fails blocks the incident for good. */
module BlockedIncidents {
  import opened Ordering
  import opened Domain
  import opened Optimization
  import opened Candidate
  import opened CandidateReview
  import FinalizedPlan
  import GateCounterexample
  import opened Protocol
  import opened ProtocolLaws
  import opened ProtocolHistory
  import opened ProtocolProgress

  /** The worker of attempt a proposes the candidate that was written for the result. */
  ghost predicate ProposalOf(e: Event, f: Frame, result: SolverResult, version: nat, first: Id) {
    && e.EPropose? && e.planId == f.planId && CandidateOf(f, result, version, first).Some?
    && e.consistent == Consistent(CandidateOf(f, result, version, first).value, f.c.members)
  }

  /** Every order of the base plan is served by the last route that is written with a stop of it. */
  ghost predicate AllServedLast(f: Frame, result: SolverResult) {
    forall i :: 0 <= i < |f.c.members| ==> ServedLast(f, Jobs(f, result), f.c.members[i].orderId)
  }

  lemma {:induction false} ProposalRecords(s: State, a: Id, p: Id, latest: Option<Id>, consistent: bool)
    requires CanPropose(s, a, p, latest)
    ensures Agrees(Step(s, EPropose(a, p, latest, consistent)), a) <==> consistent
    ensures Pending(Step(s, EPropose(a, p, latest, consistent)), a, s.attempts[a].incidentId)
    ensures !Step(s, EPropose(a, p, latest, consistent)).attempts[a].isOption
  {
  }

  /** Whether a proposed candidate can ever be decided is settled by the context and the solver result:
      while its base is current it can, if every order is served by the last route written with a stop
      of it; otherwise, whatever is attempted later, no transaction on the incident goes through. */
  lemma {:induction false} ProposalIsDecidableIff(s: State, e: Event, f: Frame, result: SolverResult, version: nat, first: Id, events: seq<Event>)
    requires Inv(s) && Enabled(s, e) && ProposalOf(e, f, result, version, first)
    requires OneRoutePerVehicle(f.c.routes) && DistinctVehicles(result.routes)
    ensures var i := s.attempts[e.attemptId].incidentId;
            if AllServedLast(f, result) then Reviewable(Step(s, e), e.attemptId)
            else !Proceeds(Run(Step(s, e), events), i)
  {
    var i, t := s.attempts[e.attemptId].incidentId, Step(s, e);
    GateVerdictIsForeseeable(f, result, version, first);
    ProposalRecords(s, e.attemptId, e.planId, e.latest, e.consistent);
    ApplyKeepsInv(s, e);
    if AllServedLast(f, result) {
      ProposalKeepsBase(s, e);
      PendingIsReviewable(t, e.attemptId, i);
    } else {
      UnfitBlocksForever(t, e.attemptId, i, events);
    }
  }

  lemma {:induction false} ProposalKeepsBase(s: State, e: Event)
    requires Inv(s) && e.EPropose? && Enabled(s, e)
    ensures BaseIsCurrent(Step(s, e), s.attempts[e.attemptId].incidentId)
  {
  }

  // ----- a concrete run -----

  const INCIDENT: Id := 3
  const ATTEMPT: Id := 4

  /** A plan, the breakdown of `GateCounterexample`, and its recovery. */
  function Story(): seq<Event> {
    [EGenerate(0, None, 10, 1, false, 0), EReport(INCIDENT, 10, 0, true), EStart(INCIDENT, ATTEMPT)]
  }

  function Proposal(version: nat, first: Id): Event
    requires CandidateOf(GateCounterexample.Setting(), GateCounterexample.Answer(), version, first).Some?
  {
    EPropose(ATTEMPT, 900, Some(10),
             Consistent(CandidateOf(GateCounterexample.Setting(), GateCounterexample.Answer(), version, first).value,
                        GateCounterexample.Breakdown().members))
  }

  const PLAN := Plan(0, 1, 1, None, PlanCurrent, Some(0), None, true)

  lemma {:induction false} StoryRuns()
    ensures Run(EMPTY, Story())
            == State(map[10 := PLAN], map[INCIDENT := Incident(10, 0, Replanning, None)],
                     map[ATTEMPT := NewAttempt(INCIDENT, 1, None, 10, AffectedRoute)], map[ATTEMPT := Solving(false)], {})
  {
    var events := Story();
    assert events[..2][..1] == events[..1] && events[..3] == events && events[..1][..0] == [];
    assert Run(EMPTY, events[..0]) == EMPTY;
    assert Run(EMPTY, events[..1]) == Step(EMPTY, events[0]);
    var one := State(map[10 := PLAN], map[], map[], map[], {});
    assert Step(EMPTY, events[0]) == one;
    var two := State(map[10 := PLAN], map[INCIDENT := Incident(10, 0, Replanning, None)], map[], map[], {});
    assert Step(one, events[1]) == two;
    assert Run(EMPTY, events[..2]) == two;
  }

  const REFUSED := EPropose(ATTEMPT, 900, Some(10), false)

  lemma {:induction false} StoryWithRefusal()
    ensures Inv(Run(EMPTY, Story())) && Enabled(Run(EMPTY, Story()), REFUSED)
    ensures var t := Step(Run(EMPTY, Story()), REFUSED);
            Materializes(t, INCIDENT, AffectedRoute) && !HasOrphan(t, INCIDENT) && Unfit(t, ATTEMPT, INCIDENT)
  {
    StoryRuns();
    EmptyIsOk();
    RunKeepsInv(EMPTY, Story());
    var s := Run(EMPTY, Story());
    assert CanPropose(s, ATTEMPT, 900, Some(10));
    ProposalRecords(s, ATTEMPT, 900, Some(10), false);
  }

  lemma {:induction false} StoryEnds(events: seq<Event>)
    ensures !Proceeds(Run(Step(Run(EMPTY, Story()), REFUSED), events), INCIDENT)
  {
    StoryWithRefusal();
    var s := Run(EMPTY, Story());
    ApplyKeepsInv(s, REFUSED);
    UnfitBlocksForever(Step(s, REFUSED), ATTEMPT, INCIDENT, events);
  }

  /** The recovery of that breakdown is accepted with every order assigned; once it is proposed, the
      incident stays under review and no transaction on it ever goes through again, although no
      attempt is orphaned. */
  lemma {:induction false} RefusedRecoveryBlocks(version: nat, first: Id, events: seq<Event>)
    ensures FinalizedPlan.Certified(GateCounterexample.Input(), GateCounterexample.Answer()) && GateCounterexample.Answer().unassigned == []
    ensures CandidateOf(GateCounterexample.Setting(), GateCounterexample.Answer(), version, first).Some?
    ensures var t := Step(Run(EMPTY, Story()), Proposal(version, first));
            && Materializes(t, INCIDENT, AffectedRoute) && !HasOrphan(t, INCIDENT) && HasUnfit(t, INCIDENT)
            && !Proceeds(Run(t, events), INCIDENT)
  {
    GateCounterexample.AcceptedRecoveryIsRefused(version, first);
    assert Proposal(version, first) == REFUSED;
    StoryWithRefusal();
    StoryEnds(events);
  }
}
