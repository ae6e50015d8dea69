/** Inputs with one order, one vehicle and two places no distance apart, and the accepted answers to them:
    the smallest recoveries that show something. */
module SmallInputs {
  import opened Ordering
  import opened Domain
  import opened Optimization
  import opened Checker
  import opened Feasibility
  import opened FinalizedPlan

  const NOWHERE: Matrix := [[0, 0], [0, 0]]

  function OneOrder(order: SolverOrder, vehicle: SolverVehicle, a: Id, b: Id): SolverInput {
    SolverInput([order], [vehicle], [], [a, b], NOWHERE, NOWHERE)
  }

  /** Taken on at a and dropped at b, all at once. */
  function Trip(order: SolverOrder, vehicle: SolverVehicle, a: Id, b: Id): SolverRoute {
    SolverRoute(vehicle.vehicleId,
                [SolverStop(order.orderId, a, order.OriginKind(), 1, 0, 0, 0, order.demand),
                 SolverStop(order.orderId, b, Delivery, 2, 0, 0, 0, -order.demand)], 0, 0)
  }

  /** Only dropped. */
  function Drop(order: SolverOrder, vehicle: SolverVehicle, b: Id): SolverRoute {
    SolverRoute(vehicle.vehicleId, [SolverStop(order.orderId, b, Delivery, 1, 0, 0, 0, -order.demand)], 0, 0)
  }

  function Only(route: SolverRoute): SolverResult {
    SolverResult(Feasible, [route], [], 0, 0)
  }

  predicate Timeless(order: SolverOrder, b: Id) {
    && order.Valid() && order.delivery == b && order.ready == 0 && order.windowStart == 0
    && order.pickupService == 0 && order.handoverService == 0 && order.deliveryService == 0
  }

  predicate Idle(vehicle: SolverVehicle, a: Id, b: Id) {
    vehicle.Valid() && vehicle.availableFrom == 0 && (vehicle.start == a || vehicle.start == b)
  }

  predicate Carries(order: SolverOrder, vehicle: SolverVehicle, a: Id) {
    order.Origin() == Some(a) && vehicle.initialLoad == 0 && order.demand <= vehicle.capacity
  }

  predicate Holds(order: SolverOrder, vehicle: SolverVehicle) {
    order.DeliveryOnly() && order.requiredVehicle == Some(vehicle.vehicleId) && vehicle.initialLoad == order.demand
  }

  lemma {:induction false} InputIsValid(order: SolverOrder, vehicle: SolverVehicle, a: Id, b: Id)
    requires a != b && Timeless(order, b) && Idle(vehicle, a, b) && (order.Origin().Some? ==> order.Origin().value == a)
    ensures OneOrder(order, vehicle, a, b).Valid()
  {
    var input := OneOrder(order, vehicle, a, b);
    assert input.locations[0] == a && input.locations[1] == b;
    assert input.MatricesFit();
  }

  lemma {:induction false} DictionariesAre(order: SolverOrder, vehicle: SolverVehicle, a: Id, b: Id)
    ensures OrdersById(OneOrder(order, vehicle, a, b).orders) == map[order.orderId := order]
    ensures VehiclesById(OneOrder(order, vehicle, a, b).vehicles) == map[vehicle.vehicleId := vehicle]
  {
    assert [order][..0] == [] && [vehicle][..0] == [];
  }

  lemma {:induction false} NoDistance(input: SolverInput, from: Id, to: Id)
    requires input.MatricesFit() && input.distances == NOWHERE && input.durations == NOWHERE && from in input.locations && to in input.locations
    ensures Entry(input, input.distances, from, to) == 0 && Entry(input, input.durations, from, to) == 0
  {
  }

  lemma {:induction false} TripIsCarried(order: SolverOrder, vehicle: SolverVehicle, a: Id, b: Id)
    requires a != b && Timeless(order, b) && Idle(vehicle, a, b) && Carries(order, vehicle, a)
    ensures var stops := Trip(order, vehicle, a, b).stops; var orders := map[order.orderId := order];
            && (forall k :: 0 <= k < |stops| ==> Honest(orders, stops, k))
            && Carried(order, vehicle, stops)
            && forall n :: 0 <= n <= |stops| ==> 0 <= Load(orders, vehicle.initialLoad, stops, n) <= vehicle.capacity
  {
    var stops, orders := Trip(order, vehicle, a, b).stops, map[order.orderId := order];
    assert OnlyAtBoth(stops, order.orderId, 0, 1);
    assert IsStopOf(stops[0], order, order.OriginKind(), a) && IsStopOf(stops[1], order, Delivery, b);
    assert Load(orders, 0, stops, 0) == 0;
    assert Load(orders, 0, stops, 1) == order.demand;
    assert Load(orders, 0, stops, 2) == 0;
  }

  predicate TwoPlaces(input: SolverInput, a: Id, b: Id) {
    a != b && input.locations == [a, b] && input.distances == NOWHERE && input.durations == NOWHERE
  }

  lemma {:induction false} TripIsFeasible(input: SolverInput, order: SolverOrder, vehicle: SolverVehicle, a: Id, b: Id)
    requires TwoPlaces(input, a, b) && Timeless(order, b) && Idle(vehicle, a, b) && Carries(order, vehicle, a)
    ensures input.MatricesFit() && vehicle.start in input.locations
    ensures FeasibleRoute(input, map[order.orderId := order], vehicle, Trip(order, vehicle, a, b))
  {
    var stops := Trip(order, vehicle, a, b).stops;
    assert input.locations[0] == a && input.locations[1] == b;
    assert input.MatricesFit();
    TripIsCarried(order, vehicle, a, b);
    NoDistance(input, vehicle.start, a);
    NoDistance(input, a, b);
    assert Reachable(input, vehicle, stops, 0) && Reachable(input, vehicle, stops, 1);
    assert Located(input, stops);
    assert RouteDistance(input, vehicle, stops, 1) == 0;
    assert RouteDistance(input, vehicle, stops, 2) == 0;
  }

  lemma {:induction false} TotalsOfOne(route: SolverRoute)
    ensures TotalDistance([route], 1) == route.distance && TotalDuration([route], 1) == route.duration
  {
    assert TotalDistance([route], 0) == 0 && TotalDuration([route], 0) == 0;
  }

  lemma {:induction false} OneRouteIsCertified(order: SolverOrder, vehicle: SolverVehicle, a: Id, b: Id, route: SolverRoute)
    requires OneOrder(order, vehicle, a, b).Valid() && vehicle.start in [a, b] && route.vehicleId == vehicle.vehicleId
    requires route.distance == 0 && route.duration == 0 && route.stops != [] && route.stops[0].orderId == order.orderId
    requires FeasibleRoute(OneOrder(order, vehicle, a, b), map[order.orderId := order], vehicle, route)
    ensures Certified(OneOrder(order, vehicle, a, b), Only(route))
  {
    var input, result := OneOrder(order, vehicle, a, b), Only(route);
    DictionariesAre(order, vehicle, a, b);
    assert result.routes[0].stops[0].orderId == order.orderId;
    assert OnRoute(result.routes, 0, order.orderId);
    assert SettledOnce(result, order.orderId);
    TotalsOfOne(route);
    assert FeasibleRouting(input, result);
    AcceptedIffFeasible(input, result);
  }

  /** The trip is an accepted answer. */
  lemma {:induction false} TripIsCertified(order: SolverOrder, vehicle: SolverVehicle, a: Id, b: Id)
    requires a != b && Timeless(order, b) && Idle(vehicle, a, b) && Carries(order, vehicle, a)
    ensures Certified(OneOrder(order, vehicle, a, b), Only(Trip(order, vehicle, a, b)))
  {
    InputIsValid(order, vehicle, a, b);
    TripIsFeasible(OneOrder(order, vehicle, a, b), order, vehicle, a, b);
    OneRouteIsCertified(order, vehicle, a, b, Trip(order, vehicle, a, b));
  }

  lemma {:induction false} DropIsFeasible(order: SolverOrder, vehicle: SolverVehicle, a: Id, b: Id)
    requires a != b && Timeless(order, b) && Idle(vehicle, a, b) && Holds(order, vehicle)
    ensures OneOrder(order, vehicle, a, b).MatricesFit() && vehicle.start in OneOrder(order, vehicle, a, b).locations
    ensures FeasibleRoute(OneOrder(order, vehicle, a, b), map[order.orderId := order], vehicle, Drop(order, vehicle, b))
  {
    var input, stops, orders := OneOrder(order, vehicle, a, b), Drop(order, vehicle, b).stops, map[order.orderId := order];
    assert input.locations[0] == a && input.locations[1] == b;
    assert input.MatricesFit();
    assert OnlyAt(stops, order.orderId, 0) && IsStopOf(stops[0], order, Delivery, b);
    assert Load(orders, vehicle.initialLoad, stops, 0) == order.demand;
    assert Load(orders, vehicle.initialLoad, stops, 1) == 0;
    NoDistance(input, vehicle.start, b);
    assert Reachable(input, vehicle, stops, 0) && Located(input, stops);
    assert RouteDistance(input, vehicle, stops, 1) == 0;
  }

  /** So is the delivery of goods on board. */
  lemma {:induction false} DropIsCertified(order: SolverOrder, vehicle: SolverVehicle, a: Id, b: Id)
    requires a != b && Timeless(order, b) && Idle(vehicle, a, b) && Holds(order, vehicle)
    ensures Certified(OneOrder(order, vehicle, a, b), Only(Drop(order, vehicle, b)))
  {
    InputIsValid(order, vehicle, a, b);
    DropIsFeasible(order, vehicle, a, b);
    OneRouteIsCertified(order, vehicle, a, b, Drop(order, vehicle, b));
  }
}
