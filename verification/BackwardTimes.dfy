/** A wider recovery gives an order to a vehicle that has not set out: its planned stops are kept, and the new
    ones behind them are planned first. */
module BackwardTimes {
  import opened Ordering
  import opened Domain
  import opened Optimization
  import opened Finalizer
  import opened FinalizedPlan
  import opened Candidate
  import opened CandidateLaws
  import opened SmallInputs
  import RecoveryContext
  import Protocol
  import opened ExecutedPlans
  import opened PlannedTimes

  const ORDER: Id := 7
  const OTHER: Id := 8
  const SHOP: Id := 50
  const CUSTOMER: Id := 60
  const MERCHANT: Id := 5
  const WANTED := PlanningOrder(ORDER, SHOP, CUSTOMER, 0, 0, 0, 9000, 0, 1)
  const WANTED_TOO := PlanningOrder(OTHER, SHOP, CUSTOMER, 5000, 0, 0, 9000, 0, 1)

  /** Vehicle 1 is to carry order 8 later. */
  function Waiting(): Route {
    Route(100, 10, 1, 1, 1, 1, SHOP, CUSTOMER, RoutePlanned, 0, 5010, None, None, 0, 5010, 5,
          [Stop(101, 100, OTHER, SHOP, Pickup, 1, None, None, 5000, 5000, None, None, 0, Some(5000), None, 1, Planned),
           Stop(102, 100, OTHER, CUSTOMER, Delivery, 2, Some(101), None, 5010, 5010, None, None, 0, Some(0), Some(9000), 1, Planned)])
  }

  /** Vehicle 2 was to carry order 7, whose merchant is late. */
  function Late(): Route {
    Route(200, 10, 2, 2, 2, 2, SHOP, CUSTOMER, RoutePlanned, 0, 20, None, None, 0, 20, 5,
          [Stop(201, 200, ORDER, SHOP, Pickup, 1, None, None, 10, 10, None, None, 0, Some(0), None, 1, Planned),
           Stop(202, 200, ORDER, CUSTOMER, Delivery, 2, Some(201), None, 20, 20, None, None, 0, Some(0), Some(9000), 1, Planned)])
  }

  /** No vehicle has set out, so widening the scope brings in no other order. */
  function Tables(): RecoveryContext.Base {
    RecoveryContext.Base(1000, map[ORDER := RecoveryContext.BaseRow(WANTED, MERCHANT, OrderPlanned, Some(200)),
                                   OTHER := RecoveryContext.BaseRow(WANTED_TOO, 6, OrderPlanned, Some(100))],
                         map[100 := Waiting(), 200 := Late()], {}, map[ORDER := RecoveryContext.Impact(true, false, Some(200))], None,
                         Some(RecoveryContext.Delay(MERCHANT, 700)))
  }

  function Moved(): Target {
    Target(ORDER, SHOP, CUSTOMER, 700, 0, 0, 9000, 0, 1, Some(200), None, None)
  }

  function Wider(): Recovery {
    Recovery(3, None, None, 10, 1, 1000, [Moved()], [VehicleFact(1, 1, 1, 5, 0, SHOP, 1000, 9000)], [Waiting(), Late()],
             [Member(ORDER, Some(200), None), Member(OTHER, Some(100), None)])
  }

  lemma {:induction false} ContextIs()
    ensures forall o :: RecoveryContext.InScope(Tables(), Protocol.CrossRoute, o) <==> o == ORDER
    ensures RecoveryContext.FactsOf(Tables(), Ascending({ORDER}), Wider().targets)
  {
    assert RecoveryContext.Affected(Tables(), ORDER);
    AscendingUnique([ORDER], {ORDER});
  }

  function Order7(): SolverOrder {
    SolverOrder(ORDER, Some(SHOP), None, CUSTOMER, 0, 0, 8000, 0, 0, 0, 1, None)
  }

  function Vehicle1(): SolverVehicle {
    SolverVehicle(1, 5, SHOP, 0, 8000, 0)
  }

  lemma {:induction false} InputIs()
    ensures RecoveryInput(Wider(), [SHOP, CUSTOMER], NOWHERE, NOWHERE) == OneOrder(Order7(), Vehicle1(), SHOP, CUSTOMER)
  {
    var c := Wider();
    assert c.targets[..0] == [] && c.vehicles[..0] == [];
    assert AsRecoveryOrders(c.now, c.targets) == [Order7()];
    assert AsRecoveryVehicles(c.now, c.vehicles) == [Vehicle1()];
  }

  function TheAnswer(first: Id): Answer {
    Answer(Frame(Wider(), 900, None), [SHOP, CUSTOMER], NOWHERE, NOWHERE, Only(Trip(Order7(), Vehicle1(), SHOP, CUSTOMER)), first)
  }

  lemma {:induction false} AnswerIsOk(first: Id)
    ensures TheAnswer(first).Ok()
  {
    InputIs();
    TripIsCertified(Order7(), Vehicle1(), SHOP, CUSTOMER);
    var f, result := TheAnswer(first).f, TheAnswer(first).result;
    assert GoodsAreLoaded(f.c) && NoEmptyRoute(result.routes) && OneRoutePerVehicle(f.c.routes);
    LookupsSucceedIffGoodsAreLoaded(f, [SHOP, CUSTOMER], NOWHERE, NOWHERE, result, first);
  }

  function TheJob(first: Id): Job {
    BaseJob(Waiting(), RoutesByVehicle(TheAnswer(first).result.routes))
  }

  lemma {:induction false} JobIs(first: Id)
    ensures TheAnswer(first).f.Kept(TheJob(first)) == Waiting().stops && TheAnswer(first).f.New(TheJob(first)) == Trip(Order7(), Vehicle1(), SHOP, CUSTOMER).stops
  {
    var routes, targets := TheAnswer(first).result.routes, Wider().targets;
    assert routes[..0] == [] && targets[0].originalRoute == Some(200);
    assert RebuiltIds(targets) == {200 as Id};
  }

  lemma {:induction false} DoesNotWait()
    ensures Forward(Waiting().stops) && Forward(Late().stops)
    ensures !Waits(1000, Waiting().stops, Trip(Order7(), Vehicle1(), SHOP, CUSTOMER).stops)
  {
  }

  lemma {:induction false} RowIsBackward(answer: Answer, base: Route, added: seq<SolverStop>) returns (j: nat)
    requires answer.Ok() && |answer.f.c.routes| > 0 && answer.f.c.routes[0] == base && Forward(base.stops) && base.stops != []
    requires var job := BaseJob(base, RoutesByVehicle(answer.result.routes));
             answer.f.Kept(job) == base.stops && answer.f.New(job) == added && !Waits(answer.f.c.now, base.stops, added)
    ensures j < |answer.Rows()| && answer.Rows()[j].vehicleId == base.vehicleId && !Forward(answer.Rows()[j].stops)
  {
    j := RowRunsForwardIff(answer, 0);
  }

  /** The recovery is accepted with every order assigned, both base routes run forward, and the row written
      for vehicle 1 does not. */
  lemma {:induction false} AcceptedButBackward(first: Id) returns (j: nat)
    ensures TheAnswer(first).Ok() && Forward(Waiting().stops) && Forward(Late().stops)
    ensures j < |TheAnswer(first).Rows()| && TheAnswer(first).Rows()[j].vehicleId == 1 && !Forward(TheAnswer(first).Rows()[j].stops)
  {
    AnswerIsOk(first);
    JobIs(first);
    DoesNotWait();
    j := RowIsBackward(TheAnswer(first), Waiting(), Trip(Order7(), Vehicle1(), SHOP, CUSTOMER).stops);
  }
}
