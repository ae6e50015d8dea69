/** A breakdown whose accepted recovery the approval gate refuses: the donor route is written
    after the receiving one and takes the order's membership back. */
module GateCounterexample {
  import opened Ordering
  import opened Domain
  import opened Optimization
  import opened Checker
  import opened Feasibility
  import opened Finalizer
  import opened FinalizedPlan
  import opened Candidate
  import opened CandidateLaws
  import opened CandidateReview
  import opened SmallInputs

  const ORDER: Id := 7
  const INCIDENT_PLACE: Id := 50
  const CUSTOMER: Id := 60

  /** Vehicle 1 is free again: its only order, 8, is delivered. */
  function Receiver(): Route {
    Route(100, 10, 1, 1, 1, 1, INCIDENT_PLACE, CUSTOMER, RouteCompleted, 0, 10, Some(0), Some(10), 0, 10, 5,
          [Stop(101, 100, 8, 50, Pickup, 1, None, None, 0, 0, Some(0), Some(0), 0, Some(0), None, 1, Completed),
           Stop(102, 100, 8, 60, Delivery, 2, Some(101), None, 10, 10, Some(10), Some(10), 0, Some(0), Some(100), 1, Completed)])
  }

  /** Vehicle 2 broke down with order 7 on board. */
  function Donor(): Route {
    Route(200, 10, 2, 2, 2, 2, INCIDENT_PLACE, CUSTOMER, RouteActive, 0, 90, Some(0), None, 0, 90, 5,
          [Stop(201, 200, ORDER, 50, Pickup, 1, None, None, 5, 5, Some(5), Some(5), 0, Some(0), None, 1, Completed),
           Stop(202, 200, ORDER, 60, Delivery, 2, Some(201), None, 90, 90, None, None, 0, Some(0), Some(100), 1, Planned)])
  }

  function Handed(): Target {
    Target(ORDER, 50, CUSTOMER, 0, 0, 0, 100, 0, 1, Some(200), Some(INCIDENT_PLACE), None)
  }

  function Breakdown(): Recovery {
    Recovery(3, Some(200), Some(INCIDENT_PLACE), 10, 1, 20, [Handed()],
             [VehicleFact(11, 1, 1, 5, 0, INCIDENT_PLACE, 20, 200)], [Receiver(), Donor()],
             [Member(ORDER, Some(200), None), Member(8, Some(100), None)])
  }

  const HANDOVER_STOP := SolverStop(ORDER, INCIDENT_PLACE, Handover, 1, 0, 0, 0, 1)
  const DELIVERY_STOP := SolverStop(ORDER, CUSTOMER, Delivery, 2, 0, 0, 0, -1)

  function Answer(): SolverResult {
    Only(SolverRoute(1, [HANDOVER_STOP, DELIVERY_STOP], 0, 0))
  }

  function Input(): SolverInput {
    RecoveryInput(Breakdown(), [INCIDENT_PLACE, CUSTOMER], NOWHERE, NOWHERE)
  }

  function Order7(): SolverOrder {
    SolverOrder(ORDER, None, Some(INCIDENT_PLACE), CUSTOMER, 0, 0, 80, 0, 0, 0, 1, None)
  }

  function Vehicle1(): SolverVehicle {
    SolverVehicle(1, 5, INCIDENT_PLACE, 0, 180, 0)
  }

  lemma {:induction false} InputIs()
    ensures Input() == OneOrder(Order7(), Vehicle1(), INCIDENT_PLACE, CUSTOMER)
  {
    var c := Breakdown();
    assert c.targets[..0] == [] && c.vehicles[..0] == [];
    assert AsRecoveryOrders(c.now, c.targets) == [Order7()];
    assert AsRecoveryVehicles(c.now, c.vehicles) == [Vehicle1()];
  }

  lemma {:induction false} AnswerIsTrip()
    ensures Answer() == Only(Trip(Order7(), Vehicle1(), INCIDENT_PLACE, CUSTOMER))
    ensures Timeless(Order7(), CUSTOMER) && Idle(Vehicle1(), INCIDENT_PLACE, CUSTOMER) && Carries(Order7(), Vehicle1(), INCIDENT_PLACE)
  {
  }

  lemma {:induction false} AnswerIsCertified()
    ensures Certified(Input(), Answer())
  {
    InputIs();
    AnswerIsTrip();
    TripIsCertified(Order7(), Vehicle1(), INCIDENT_PLACE, CUSTOMER);
  }

  // ----- the candidate -----

  function Setting(): Frame {
    Frame(Breakdown(), 900, None)
  }

  function Receiving(): Job {
    Job(Some(Receiver()), Some(Answer().routes[0]))
  }

  function Giving(): Job {
    Job(Some(Donor()), None)
  }

  lemma {:induction false} KeptParts()
    ensures TargetsById(Breakdown().targets) == map[ORDER := Handed()]
    ensures RebuiltIds(Breakdown().targets) == {200 as Id}
    ensures Setting().Kept(Receiving()) == Receiver().stops && Setting().Kept(Giving()) == [Donor().stops[0]]
  {
    var targets, stops := Breakdown().targets, Donor().stops;
    assert targets[..0] == [];
    assert RebuiltIds(targets) == {200 as Id} by { assert targets[0].originalRoute == Some(200); }
    assert stops[..1] == [stops[0]] && stops[..1][..0] == [];
    assert Surviving(stops[..1], {ORDER}) == [stops[0]];
    assert Surviving(stops, {ORDER}) == [stops[0]];
    assert TargetsById(targets).Keys == {ORDER};
  }

  lemma {:induction false} JobsAreBuildable()
    ensures Setting().Buildable(Receiving()) && Setting().Buildable(Giving())
  {
    KeptParts();
    var s := Setting().SpliceOf(Receiving());
    assert s.added == [HANDOVER_STOP, DELIVERY_STOP];
    assert FreshOk(s.targets, s.preserved, s.added, 0);
    assert ORDER in OriginIds(s.preserved, s.added, 0, |s.preserved|, 1);
    assert FreshOk(s.targets, s.preserved, s.added, 1);
  }

  lemma {:induction false} JobsAre()
    ensures RoutesByVehicle(Answer().routes) == map[1 := Answer().routes[0]]
    ensures BaseJob(Receiver(), RoutesByVehicle(Answer().routes)) == Receiving()
    ensures BaseJob(Donor(), RoutesByVehicle(Answer().routes)) == Giving()
    ensures 1 in BaseVehicles(Breakdown().routes)
  {
    assert Answer().routes[..0] == [];
    assert Breakdown().routes[0].vehicleId == 1;
  }

  lemma {:induction false} DonorIsWrittenLast(first: Id) returns (giver: Route)
    ensures FinalDraft(Setting(), Answer(), first).Written?
    ensures |FinalDraft(Setting(), Answer(), first).rows| == 2 && FinalDraft(Setting(), Answer(), first).rows[1] == giver
    ensures |giver.stops| == 1 && giver.stops[0].orderId == ORDER && giver.stops[0].kind == Pickup
    ensures ORDER in FinalDraft(Setting(), Answer(), first).routeByOrder && 8 in FinalDraft(Setting(), Answer(), first).routeByOrder
  {
    var f, byVehicle := Setting(), RoutesByVehicle(Answer().routes);
    KeptParts();
    JobsAreBuildable();
    JobsAre();
    var start := Written([], map[], first);
    var one := WriteNext(f, start, Receiving());
    var two := WriteNext(f, one, Giving());
    assert BaseDraft(f, byVehicle, first, 0) == start;
    assert BaseDraft(f, byVehicle, first, 1) == one;
    assert BaseDraft(f, byVehicle, first, 2) == two;
    assert LeftoverDraft(f, Answer().routes, two, 0) == two;
    assert FinalDraft(f, Answer(), first) == two;
    giver := f.Row(Giving(), one.next, 2);
    WrittenRow(f, Giving(), one.next, 2);
    RowAt(f.SpliceOf(Giving()), one.next, 0);
    VisitedIs(one.routeByOrder, one.next, f.SpliceOf(Giving()), 1, 0, ORDER);
    assert OrderAt(f.SpliceOf(Giving()), 0) == ORDER;
    VisitedIs(one.routeByOrder, one.next, f.SpliceOf(Giving()), 1, 0, 8);
    VisitedIs(start.routeByOrder, first, f.SpliceOf(Receiving()), 2, 2, 8);
    assert OrderAt(f.SpliceOf(Receiving()), 0) == 8;
  }

  lemma {:induction false} LastRowLacksDelivery(rows: seq<Route>, giver: Route)
    requires |rows| == 2 && rows[1] == giver && |giver.stops| == 1 && giver.stops[0].orderId == ORDER && giver.stops[0].kind == Pickup
    ensures !LastRowDelivers(rows, ORDER)
  {
    assert HasStopOf(giver, ORDER) && !Delivers(giver, ORDER);
    assert IsLast(rows, 1, ORDER);
  }

  lemma {:induction false} CandidateIsStored(version: nat, first: Id)
    ensures CandidateOf(Setting(), Answer(), version, first).Some?
    ensures CandidateOf(Setting(), Answer(), version, first).value.routes == FinalDraft(Setting(), Answer(), first).rows
  {
    var giver := DonorIsWrittenLast(first);
    assert Breakdown().members[0].orderId == ORDER && Breakdown().members[1].orderId == 8;
  }

  /** The result is accepted and every order is assigned, the candidate is stored, and the gate
      refuses it. */
  lemma {:induction false} AcceptedRecoveryIsRefused(version: nat, first: Id)
    ensures Certified(Input(), Answer()) && Answer().unassigned == [] && GoodsAreLoaded(Breakdown())
    ensures CandidateOf(Setting(), Answer(), version, first).Some?
    ensures !Consistent(CandidateOf(Setting(), Answer(), version, first).value, Breakdown().members)
  {
    AnswerIsCertified();
    CandidateIsStored(version, first);
    var giver := DonorIsWrittenLast(first);
    LastRowLacksDelivery(FinalDraft(Setting(), Answer(), first).rows, giver);
    assert Breakdown().members[0].orderId == ORDER;
    PassesTheGateIff(Setting(), Answer(), version, first);
  }
}
