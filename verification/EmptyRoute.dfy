/** An accepted plan with an empty route of any length, which cannot be stored. */
module EmptyRoute {
  import opened Ordering
  import opened Domain
  import opened Optimization
  import opened Checker
  import opened Feasibility
  import opened Finalizer
  import opened FinalizedPlan
  import opened SmallInputs

  const ORDER: Id := 7
  const SHOP: Id := 50
  const CUSTOMER: Id := 60

  /** One order and two vehicles. */
  function Day(): Facts {
    Facts(0, [PlanningOrder(ORDER, SHOP, CUSTOMER, 0, 0, 0, 100, 0, 1)], [Pair(1, 1, 1, 5, SHOP, 0, None), Pair(2, 2, 2, 5, SHOP, 0, None)])
  }

  function Order7(): SolverOrder {
    SolverOrder(ORDER, Some(SHOP), None, CUSTOMER, 0, 0, 100, 0, 0, 0, 1, None)
  }

  function Vehicle(v: Id): SolverVehicle {
    SolverVehicle(v, 5, SHOP, 0, 100, 0)
  }

  function Input(): SolverInput {
    SolverInput([Order7()], [Vehicle(1), Vehicle(2)], [], [SHOP, CUSTOMER], NOWHERE, NOWHERE)
  }

  /** The second vehicle stays where it is and claims to drive. */
  function Claimed(distance: nat, duration: nat): SolverResult {
    SolverResult(Feasible, [Trip(Order7(), Vehicle(1), SHOP, CUSTOMER), SolverRoute(2, [], distance, duration)], [], distance, duration)
  }

  lemma {:induction false} InputIs()
    ensures BuildSolverInput(Day(), [SHOP, CUSTOMER], NOWHERE, NOWHERE) == Input()
  {
    var orders, pairs := Day().orders, Day().pairs;
    assert orders[..0] == [] && pairs[..1] == [pairs[0]] && pairs[..1][..0] == [];
    assert AsSolverOrders(0, orders) == [Order7()];
    assert PlanningEnd(Day(), 1) == 100;
    assert AsSolverVehicles(0, 100, pairs[..1]) == [Vehicle(1)];
    assert AsSolverVehicles(0, 100, pairs) == [Vehicle(1), Vehicle(2)];
  }

  lemma {:induction false} DictionariesAre()
    ensures OrdersById(Input().orders) == map[ORDER := Order7()]
    ensures VehiclesById(Input().vehicles) == map[1 := Vehicle(1), 2 := Vehicle(2)]
  {
    var vehicles := Input().vehicles;
    assert [Order7()][..0] == [] && vehicles[..1] == [Vehicle(1)] && vehicles[..1][..0] == [];
    assert VehiclesById([Vehicle(1)]) == map[1 := Vehicle(1)];
  }

  lemma {:induction false} InputIsValid()
    ensures Input().Valid() && StartsInMatrix(Input(), VehiclesById(Input().vehicles))
  {
    assert Input().locations[0] == SHOP && Input().locations[1] == CUSTOMER;
    assert Input().MatricesFit();
    DictionariesAre();
  }

  lemma {:induction false} NothingToDrive(input: SolverInput, orders: Orders, vehicle: SolverVehicle, route: SolverRoute)
    requires input.MatricesFit() && vehicle.start in input.locations && route.stops == [] && 0 <= vehicle.initialLoad <= vehicle.capacity
    ensures FeasibleRoute(input, orders, vehicle, route)
  {
  }

  lemma {:induction false} TotalsAre(distance: nat, duration: nat)
    ensures TotalDistance(Claimed(distance, duration).routes, 2) == distance && TotalDuration(Claimed(distance, duration).routes, 2) == duration
  {
    var routes := Claimed(distance, duration).routes;
    assert TotalDistance(routes, 1) == 0 && TotalDuration(routes, 1) == 0 by { assert TotalDistance(routes, 0) == 0 && TotalDuration(routes, 0) == 0; }
  }

  lemma {:induction false} RoutesAreFeasible(input: SolverInput, orders: Orders, distance: nat, duration: nat)
    requires TwoPlaces(input, SHOP, CUSTOMER) && input.MatricesFit() && orders == map[ORDER := Order7()]
    requires Vehicle(1).start in input.locations && Vehicle(2).start in input.locations
    ensures FeasibleRoute(input, orders, Vehicle(1), Claimed(distance, duration).routes[0])
    ensures FeasibleRoute(input, orders, Vehicle(2), Claimed(distance, duration).routes[1])
  {
    TripIsFeasible(input, Order7(), Vehicle(1), SHOP, CUSTOMER);
    NothingToDrive(input, orders, Vehicle(2), Claimed(distance, duration).routes[1]);
  }

  lemma {:induction false} OnlyOnFirst(result: SolverResult, o: Id)
    requires |result.routes| == 2 && result.routes[0].stops != [] && result.routes[0].stops[0].orderId == o
    requires result.routes[1].stops == [] && result.unassigned == []
    ensures SettledOnce(result, o)
  {
    assert OnRoute(result.routes, 0, o);
    forall j ensures OnRoute(result.routes, j, o) ==> j == 0 {
    }
  }

  lemma {:induction false} RoutingIsFeasible(input: SolverInput, result: SolverResult)
    requires input.MatricesFit() && StartsInMatrix(input, VehiclesById(input.vehicles)) && input.frozen == []
    requires OrdersById(input.orders) == map[ORDER := Order7()] && VehiclesById(input.vehicles) == map[1 := Vehicle(1), 2 := Vehicle(2)]
    requires |result.routes| == 2 && result.routes[0].vehicleId == 1 && result.routes[1].vehicleId == 2 && result.unassigned == []
    requires Vehicle(1).start in input.locations && Vehicle(2).start in input.locations
    requires FeasibleRoute(input, OrdersById(input.orders), Vehicle(1), result.routes[0])
    requires FeasibleRoute(input, OrdersById(input.orders), Vehicle(2), result.routes[1])
    requires SettledOnce(result, ORDER)
    requires result.totalDistance == TotalDistance(result.routes, |result.routes|)
    requires result.totalDuration == TotalDuration(result.routes, |result.routes|)
    ensures FeasibleRouting(input, result)
  {
    TwoRoutesAreFeasible(input, result, OrdersById(input.orders), VehiclesById(input.vehicles));
    forall o | o in OrdersById(input.orders) ensures SettledOnce(result, o) {
      assert o == ORDER;
    }
    forall i, j | 0 <= i < j < |result.routes| ensures result.routes[i].vehicleId != result.routes[j].vehicleId {
      assert i == 0 && j == 1;
    }
  }

  lemma {:induction false} TwoRoutesAreFeasible(input: SolverInput, result: SolverResult, orders: Orders, vehicles: Vehicles)
    requires input.MatricesFit() && StartsInMatrix(input, vehicles) && vehicles == map[1 := Vehicle(1), 2 := Vehicle(2)]
    requires |result.routes| == 2 && result.routes[0].vehicleId == 1 && result.routes[1].vehicleId == 2
    requires Vehicle(1).start in input.locations && Vehicle(2).start in input.locations
    requires FeasibleRoute(input, orders, Vehicle(1), result.routes[0]) && FeasibleRoute(input, orders, Vehicle(2), result.routes[1])
    ensures forall i :: 0 <= i < |result.routes| ==>
              result.routes[i].vehicleId in vehicles && FeasibleRoute(input, orders, vehicles[result.routes[i].vehicleId], result.routes[i])
  {
    forall i | 0 <= i < |result.routes|
      ensures result.routes[i].vehicleId in vehicles && FeasibleRoute(input, orders, vehicles[result.routes[i].vehicleId], result.routes[i])
    {
      assert i == 0 || i == 1;
    }
  }

  lemma {:induction false} ClaimIsFeasible(distance: nat, duration: nat)
    ensures Input().Valid() && StartsInMatrix(Input(), VehiclesById(Input().vehicles)) && FeasibleRouting(Input(), Claimed(distance, duration))
  {
    InputIsValid();
    DictionariesAre();
    RoutesAreFeasible(Input(), OrdersById(Input().orders), distance, duration);
    OnlyOnFirst(Claimed(distance, duration), ORDER);
    TotalsAre(distance, duration);
    assert |Claimed(distance, duration).routes| == 2;
    RoutingIsFeasible(Input(), Claimed(distance, duration));
  }

  /** Whatever the empty route claims, the result is accepted; the finalizer fails on it. */
  lemma {:induction false} AcceptedButNotStorable(distance: nat, duration: nat, roads: Roads, planId: Id, first: Id)
    ensures Certified(BuildSolverInput(Day(), [SHOP, CUSTOMER], NOWHERE, NOWHERE), Claimed(distance, duration))
    ensures Claimed(distance, duration).unassigned == [] && !AllBuildable(Day(), Claimed(distance, duration), ContextOf(Day(), roads, planId), first)
  {
    InputIs();
    ClaimIsFeasible(distance, duration);
    AcceptedIffFeasible(Input(), Claimed(distance, duration));
    StorableIffNoEmptyRoute(Day(), [SHOP, CUSTOMER], NOWHERE, NOWHERE, Claimed(distance, duration), roads, planId, first);
    assert Claimed(distance, duration).routes[1].stops == [];
  }
}
