/** A feasible routing, stated without reference to the checker, and the proof that the
    checker accepts exactly the feasible routings. */
module Feasibility {
  import opened Ordering
  import opened Domain
  import opened Optimization
  import opened Checker

  // ----- one route -----

  ghost predicate IsStopOf(stop: SolverStop, order: SolverOrder, kind: StopKind, location: Id) {
    stop.orderId == order.orderId && stop.kind == kind && stop.locationId == location
  }

  /** Stop k is the only one of the order. */
  ghost predicate OnlyAt(stops: seq<SolverStop>, o: Id, k: int) {
    0 <= k < |stops| && stops[k].orderId == o && forall i :: 0 <= i < |stops| && stops[i].orderId == o ==> i == k
  }

  /** Stops p and d, in this order, are the only ones of the order. */
  ghost predicate OnlyAtBoth(stops: seq<SolverStop>, o: Id, p: int, d: int) {
    && 0 <= p < d < |stops| && stops[p].orderId == o && stops[d].orderId == o
    && forall i :: 0 <= i < |stops| && stops[i].orderId == o ==> i == p || i == d
  }

  /** The load is taken on at the origin and then dropped at the delivery; goods already on
      board are only dropped, by the vehicle that has them. */
  ghost predicate Carried(order: SolverOrder, vehicle: SolverVehicle, stops: seq<SolverStop>) {
    if order.DeliveryOnly() then
      && order.requiredVehicle == Some(vehicle.vehicleId)
      && exists d :: OnlyAt(stops, order.orderId, d) && IsStopOf(stops[d], order, Delivery, order.delivery)
    else
      order.Origin().Some? && exists p, d ::
        && OnlyAtBoth(stops, order.orderId, p, d)
        && IsStopOf(stops[p], order, order.OriginKind(), order.Origin().value)
        && IsStopOf(stops[d], order, Delivery, order.delivery)
  }

  /** What is on board after the first n stops, by the demands of the orders. */
  function Load(orders: Orders, initial: int, stops: seq<SolverStop>, n: nat): int
    requires n <= |stops|
  {
    if n == 0 then initial
    else Load(orders, initial, stops, n - 1)
         + if stops[n - 1].orderId in orders then orders[stops[n - 1].orderId].LoadChangeAt(stops[n - 1].kind) else 0
  }

  /** Stop k tells the truth about its order and respects its times. */
  ghost predicate Honest(orders: Orders, stops: seq<SolverStop>, k: nat)
    requires k < |stops|
  {
    var stop := stops[k];
    && stop.orderId in orders
    && var order := orders[stop.orderId];
       && stop.sequenceNo == k + 1
       && stop.service == order.ServiceAt(stop.kind)
       && stop.departure == stop.arrival + stop.service
       && stop.loadChange == order.LoadChangeAt(stop.kind)
       && (stop.kind == Delivery ==> order.windowStart <= stop.arrival <= order.windowEnd)
       && (stop.kind != Delivery ==> order.ready <= stop.arrival)
  }

  /** The vehicle can be at stop k when it says so, coming from the stop before. */
  ghost predicate Reachable(input: SolverInput, vehicle: SolverVehicle, stops: seq<SolverStop>, k: nat)
    requires input.MatricesFit() && vehicle.start in input.locations && k < |stops|
  {
    && stops[k].locationId in input.locations
    && PreviousLocation(vehicle, stops, k) in input.locations
    && PreviousDeparture(vehicle, stops, k)
         + Entry(input, input.durations, PreviousLocation(vehicle, stops, k), stops[k].locationId)
       <= stops[k].arrival
  }

  ghost predicate FeasibleRoute(input: SolverInput, orders: Orders, vehicle: SolverVehicle, route: SolverRoute)
    requires input.MatricesFit() && vehicle.start in input.locations
  {
    var stops := route.stops;
    && (forall k :: 0 <= k < |stops| ==> Honest(orders, stops, k))
    && (forall o :: o in Served(orders, stops) ==> Carried(orders[o], vehicle, stops))
    && (forall n :: 0 <= n <= |stops| ==> 0 <= Load(orders, vehicle.initialLoad, stops, n) <= vehicle.capacity)
    && (forall k :: 0 <= k < |stops| ==> Reachable(input, vehicle, stops, k))
    && (stops != [] ==>
         && stops[|stops| - 1].departure <= vehicle.availableUntil
         && route.duration == stops[|stops| - 1].departure - vehicle.availableFrom
         && Located(input, stops)
         && route.distance == RouteDistance(input, vehicle, stops, |stops|))
  }

  // ----- filters and positions -----

  lemma {:induction false} NoneFiltered(stops: seq<SolverStop>, o: Id)
    requires forall i :: 0 <= i < |stops| ==> stops[i].orderId != o
    ensures StopsOf(stops, o) == []
  {
    if stops != [] { NoneFiltered(stops[..|stops| - 1], o); }
  }

  lemma {:induction false} OneFiltered(stops: seq<SolverStop>, o: Id, k: int)
    requires OnlyAt(stops, o, k)
    ensures StopsOf(stops, o) == [stops[k]]
  {
    var front := stops[..|stops| - 1];
    if k == |stops| - 1 { NoneFiltered(front, o); } else { OneFiltered(front, o, k); }
  }

  lemma {:induction false} TwoFiltered(stops: seq<SolverStop>, o: Id, p: int, d: int)
    requires OnlyAtBoth(stops, o, p, d)
    ensures StopsOf(stops, o) == [stops[p], stops[d]]
  {
    var front := stops[..|stops| - 1];
    if d == |stops| - 1 { OneFiltered(front, o, p); } else { TwoFiltered(front, o, p, d); }
  }

  lemma {:induction false} FilteredNone(stops: seq<SolverStop>, o: Id)
    requires StopsOf(stops, o) == []
    ensures forall i :: 0 <= i < |stops| ==> stops[i].orderId != o
  {
    if stops != [] { FilteredNone(stops[..|stops| - 1], o); }
  }

  lemma {:induction false} FilteredOne(stops: seq<SolverStop>, o: Id) returns (k: nat)
    requires |StopsOf(stops, o)| == 1
    ensures OnlyAt(stops, o, k) && StopsOf(stops, o) == [stops[k]]
  {
    var front := stops[..|stops| - 1];
    if stops[|stops| - 1].orderId == o {
      FilteredNone(front, o);
      k := |stops| - 1;
    } else {
      k := FilteredOne(front, o);
    }
  }

  lemma {:induction false} FilteredTwo(stops: seq<SolverStop>, o: Id) returns (p: nat, d: nat)
    requires |StopsOf(stops, o)| == 2
    ensures OnlyAtBoth(stops, o, p, d) && StopsOf(stops, o) == [stops[p], stops[d]]
  {
    var front := stops[..|stops| - 1];
    if stops[|stops| - 1].orderId == o {
      p := FilteredOne(front, o);
      d := |stops| - 1;
    } else {
      p, d := FilteredTwo(front, o);
    }
  }

  lemma {:induction false} OfKindPair(a: SolverStop, b: SolverStop, kind: StopKind)
    ensures OfKind([a], kind) == if a.kind == kind then [a] else []
    ensures OfKind([a, b], kind) == (if a.kind == kind then [a] else []) + (if b.kind == kind then [b] else [])
  {
    assert [a, b][..1] == [a];
    assert [a][..0] == [];
  }

  ghost predicate GroupClean(order: SolverOrder, vehicle: SolverVehicle, group: seq<SolverStop>) {
    forall c :: !GroupIssue(order, Some(vehicle), group, c)
  }

  lemma {:induction false} SingletonGroup(order: SolverOrder, vehicle: SolverVehicle, d: SolverStop)
    requires order.DeliveryOnly()
    ensures GroupClean(order, vehicle, [d]) <==>
              && order.requiredVehicle == Some(vehicle.vehicleId)
              && d.kind == Delivery && d.locationId == order.delivery
  {
    OfKindPair(d, d, Delivery);
    if GroupClean(order, vehicle, [d]) {
      assert !GroupIssue(order, Some(vehicle), [d], OrderStopSetInvalid);
      assert !GroupIssue(order, Some(vehicle), [d], DeliveryLocationMismatch);
      assert !GroupIssue(order, Some(vehicle), [d], RequiredVehicleMismatch);
    }
  }

  lemma {:induction false} PairGroup(order: SolverOrder, vehicle: SolverVehicle, p: SolverStop, d: SolverStop)
    requires !order.DeliveryOnly() && p.sequenceNo < d.sequenceNo
    ensures GroupClean(order, vehicle, [p, d]) <==>
              && p.kind == order.OriginKind() && Some(p.locationId) == order.Origin()
              && d.kind == Delivery && d.locationId == order.delivery
  {
    OfKindPair(p, d, Delivery);
    OfKindPair(p, d, order.OriginKind());
    if GroupClean(order, vehicle, [p, d]) {
      assert !GroupIssue(order, Some(vehicle), [p, d], OrderStopSetInvalid);
      assert !GroupIssue(order, Some(vehicle), [p, d], StopPrecedenceInvalid);
      assert !GroupIssue(order, Some(vehicle), [p, d], OriginLocationMismatch);
      assert !GroupIssue(order, Some(vehicle), [p, d], DeliveryLocationMismatch);
    }
  }

  lemma {:induction false} GroupSize(order: SolverOrder, vehicle: SolverVehicle, group: seq<SolverStop>)
    requires GroupClean(order, vehicle, group)
    ensures |group| == if order.DeliveryOnly() then 1 else 2
  {
    assert !GroupIssue(order, Some(vehicle), group, OrderStopSetInvalid);
  }

  ghost predicate Numbered(stops: seq<SolverStop>) {
    forall i :: 0 <= i < |stops| ==> stops[i].sequenceNo == i + 1
  }

  /** The grouped checks on an order say exactly that the order is carried. */
  lemma {:induction false} GroupCleanIffCarried(order: SolverOrder, vehicle: SolverVehicle, stops: seq<SolverStop>)
    requires order.Valid() && Numbered(stops)
    ensures GroupClean(order, vehicle, StopsOf(stops, order.orderId)) <==> Carried(order, vehicle, stops)
  {
    var o := order.orderId;
    if GroupClean(order, vehicle, StopsOf(stops, o)) {
      GroupSize(order, vehicle, StopsOf(stops, o));
      if order.DeliveryOnly() {
        var d := FilteredOne(stops, o);
        SingletonGroup(order, vehicle, stops[d]);
        assert IsStopOf(stops[d], order, Delivery, order.delivery);
      } else {
        var p, d := FilteredTwo(stops, o);
        PairGroup(order, vehicle, stops[p], stops[d]);
        assert IsStopOf(stops[p], order, order.OriginKind(), order.Origin().value);
        assert IsStopOf(stops[d], order, Delivery, order.delivery);
      }
    }
    if Carried(order, vehicle, stops) {
      if order.DeliveryOnly() {
        var d :| OnlyAt(stops, o, d) && IsStopOf(stops[d], order, Delivery, order.delivery);
        OneFiltered(stops, o, d);
        SingletonGroup(order, vehicle, stops[d]);
      } else {
        var p, d :| OnlyAtBoth(stops, o, p, d) && IsStopOf(stops[p], order, order.OriginKind(), order.Origin().value)
          && IsStopOf(stops[d], order, Delivery, order.delivery);
        TwoFiltered(stops, o, p, d);
        PairGroup(order, vehicle, stops[p], stops[d]);
      }
    }
  }

  // ----- one route: clean means feasible -----

  /** What is known about the dictionaries of a valid input. */
  ghost predicate KnownOrders(input: SolverInput, orders: Orders) {
    forall o :: o in orders ==>
      && orders[o].Valid() && orders[o].orderId == o
      && orders[o].delivery in input.locations
      && (orders[o].Origin().Some? ==> orders[o].Origin().value in input.locations)
  }

  ghost predicate KnownVehicles(input: SolverInput, vehicles: Vehicles) {
    forall v :: v in vehicles ==> vehicles[v].Valid() && vehicles[v].vehicleId == v && vehicles[v].start in input.locations
  }

  ghost predicate StopClean(orders: Orders, vehicle: SolverVehicle, stops: seq<SolverStop>, k: nat)
    requires k < |stops|
  {
    forall c :: !StopIssue(orders, Some(vehicle), stops, k, c)
  }

  /** What the checks on one stop amount to. */
  ghost predicate StopFine(orders: Orders, vehicle: SolverVehicle, stops: seq<SolverStop>, k: nat)
    requires k < |stops|
  {
    var stop := stops[k];
    && stop.orderId in orders
    && var order := orders[stop.orderId];
       && stop.service == order.ServiceAt(stop.kind)
       && stop.departure == stop.arrival + stop.service
       && stop.loadChange == order.LoadChangeAt(stop.kind)
       && 0 <= LoadAfter(orders, vehicle.initialLoad, stops, k + 1) <= vehicle.capacity
       && (stop.kind == Delivery ==> order.windowStart <= stop.arrival <= order.windowEnd)
       && (stop.kind != Delivery ==> order.ready <= stop.arrival)
       && vehicle.availableFrom <= stop.arrival && stop.departure <= vehicle.availableUntil
  }

  lemma {:induction false} StopCleanIffFine(orders: Orders, vehicle: SolverVehicle, stops: seq<SolverStop>, k: nat)
    requires k < |stops|
    ensures StopClean(orders, vehicle, stops, k) <==> StopFine(orders, vehicle, stops, k)
  {
    if StopClean(orders, vehicle, stops, k) {
      assert !StopIssue(orders, Some(vehicle), stops, k, UnknownOrder);
      assert !StopIssue(orders, Some(vehicle), stops, k, StopServiceTimeInvalid);
      assert !StopIssue(orders, Some(vehicle), stops, k, StopLoadChangeInvalid);
      assert !StopIssue(orders, Some(vehicle), stops, k, VehicleCapacityExceeded);
      assert !StopIssue(orders, Some(vehicle), stops, k, PickupReadyTimeViolated);
      assert !StopIssue(orders, Some(vehicle), stops, k, DeliveryWindowViolated);
      assert !StopIssue(orders, Some(vehicle), stops, k, VehicleAvailabilityViolated);
    }
  }

  ghost predicate TravelClean(input: SolverInput, vehicle: SolverVehicle, route: SolverRoute)
    requires input.MatricesFit() && vehicle.start in input.locations
  {
    forall c :: !TravelIssue(input, Some(vehicle), route, c)
  }

  lemma {:induction false} TravelCleanIff(input: SolverInput, vehicle: SolverVehicle, route: SolverRoute)
    requires input.MatricesFit() && vehicle.start in input.locations && route.stops != [] && Located(input, route.stops)
    ensures TravelClean(input, vehicle, route) <==>
              var n := |route.stops|;
              && (forall k :: 0 <= k < n ==> !Unreachable(input, vehicle, route.stops, k))
              && route.distance == RouteDistance(input, vehicle, route.stops, n)
              && route.duration == route.stops[n - 1].departure - vehicle.availableFrom
  {
    if TravelClean(input, vehicle, route) {
      assert !TravelIssue(input, Some(vehicle), route, RouteTravelTimeInvalid);
      assert !TravelIssue(input, Some(vehicle), route, RouteDistanceMismatch);
      assert !TravelIssue(input, Some(vehicle), route, RouteDurationMismatch);
    }
  }

  lemma {:induction false} HonestLoads(orders: Orders, initial: int, stops: seq<SolverStop>, n: nat)
    requires n <= |stops|
    requires forall k :: 0 <= k < |stops| ==> Honest(orders, stops, k)
    ensures LoadAfter(orders, initial, stops, n) == Load(orders, initial, stops, n)
  {
    if 0 < n {
      assert Honest(orders, stops, n - 1);
      HonestLoads(orders, initial, stops, n - 1);
    }
  }

  /** Times only go forward along a reachable route, so it is enough to look at its ends. */
  lemma {:induction false} ClockRuns(input: SolverInput, orders: Orders, vehicle: SolverVehicle, stops: seq<SolverStop>, k: nat, n: nat)
    requires input.MatricesFit() && vehicle.start in input.locations && k <= n < |stops|
    requires KnownOrders(input, orders)
    requires forall i :: 0 <= i < |stops| ==> Honest(orders, stops, i)
    requires forall i :: 0 <= i < |stops| ==> Reachable(input, vehicle, stops, i)
    ensures vehicle.availableFrom <= stops[k].arrival <= stops[k].departure <= stops[n].departure
    decreases n + k
  {
    assert Honest(orders, stops, k) && Reachable(input, vehicle, stops, k);
    assert Honest(orders, stops, n) && Reachable(input, vehicle, stops, n);
    if k < n {
      ClockRuns(input, orders, vehicle, stops, k, n - 1);
    } else if 0 < k {
      ClockRuns(input, orders, vehicle, stops, k - 1, k - 1);
    }
  }

  /** Every stop of a carried order is at a place of that order, hence in the matrix: on an
      accepted route the guard of the travel check never skips it. */
  lemma {:induction false} CarriedIsLocated(input: SolverInput, orders: Orders, vehicle: SolverVehicle, stops: seq<SolverStop>)
    requires KnownOrders(input, orders)
    requires forall k :: 0 <= k < |stops| ==> Honest(orders, stops, k)
    requires forall o :: o in Served(orders, stops) ==> Carried(orders[o], vehicle, stops)
    ensures Located(input, stops)
  {
    forall k | 0 <= k < |stops| ensures stops[k].locationId in input.locations {
      assert Honest(orders, stops, k);
      var o := stops[k].orderId;
      assert o in Served(orders, stops);
      assert Carried(orders[o], vehicle, stops);
    }
  }

  ghost predicate PartsClean(input: SolverInput, orders: Orders, vehicle: SolverVehicle, route: SolverRoute)
    requires input.MatricesFit() && vehicle.start in input.locations
  {
    var stops := route.stops;
    && Numbered(stops)
    && (forall k :: 0 <= k < |stops| ==> StopClean(orders, vehicle, stops, k))
    && TravelClean(input, vehicle, route)
    && (forall o :: o in Served(orders, stops) ==> GroupClean(orders[o], vehicle, StopsOf(stops, o)))
  }

  lemma {:induction false} PartsCleanImpliesFeasible(input: SolverInput, orders: Orders, vehicle: SolverVehicle, route: SolverRoute)
    requires input.MatricesFit() && vehicle.start in input.locations && vehicle.Valid() && KnownOrders(input, orders)
    requires PartsClean(input, orders, vehicle, route)
    ensures FeasibleRoute(input, orders, vehicle, route)
  {
    var stops := route.stops;
    forall k | 0 <= k < |stops| ensures StopFine(orders, vehicle, stops, k) {
      assert StopClean(orders, vehicle, stops, k);
      StopCleanIffFine(orders, vehicle, stops, k);
    }
    forall k | 0 <= k < |stops| ensures Honest(orders, stops, k) {
      assert StopFine(orders, vehicle, stops, k) && stops[k].sequenceNo == k + 1;
    }
    forall o | o in Served(orders, stops) ensures Carried(orders[o], vehicle, stops) {
      GroupCleanIffCarried(orders[o], vehicle, stops);
    }
    CarriedIsLocated(input, orders, vehicle, stops);
    forall n | 0 <= n <= |stops| ensures 0 <= Load(orders, vehicle.initialLoad, stops, n) <= vehicle.capacity {
      HonestLoads(orders, vehicle.initialLoad, stops, n);
      if 0 < n { assert StopFine(orders, vehicle, stops, n - 1); }
    }
    if stops != [] {
      TravelCleanIff(input, vehicle, route);
      assert StopFine(orders, vehicle, stops, |stops| - 1);
      forall k | 0 <= k < |stops| ensures Reachable(input, vehicle, stops, k) {
        assert !Unreachable(input, vehicle, stops, k);
      }
    }
  }

  lemma {:induction false} FeasibleImpliesPartsClean(input: SolverInput, orders: Orders, vehicle: SolverVehicle, route: SolverRoute)
    requires input.MatricesFit() && vehicle.start in input.locations && KnownOrders(input, orders)
    requires FeasibleRoute(input, orders, vehicle, route)
    ensures PartsClean(input, orders, vehicle, route)
  {
    var stops := route.stops;
    forall k | 0 <= k < |stops| ensures stops[k].sequenceNo == k + 1 && StopClean(orders, vehicle, stops, k) {
      assert Honest(orders, stops, k);
      HonestLoads(orders, vehicle.initialLoad, stops, k + 1);
      assert 0 <= Load(orders, vehicle.initialLoad, stops, k + 1) <= vehicle.capacity;
      ClockRuns(input, orders, vehicle, stops, k, |stops| - 1);
      assert StopFine(orders, vehicle, stops, k);
      StopCleanIffFine(orders, vehicle, stops, k);
    }
    forall o | o in Served(orders, stops) ensures GroupClean(orders[o], vehicle, StopsOf(stops, o)) {
      GroupCleanIffCarried(orders[o], vehicle, stops);
    }
    if stops != [] {
      forall k | 0 <= k < |stops| ensures !Unreachable(input, vehicle, stops, k) {
        assert Reachable(input, vehicle, stops, k);
      }
      TravelCleanIff(input, vehicle, route);
    }
  }

  ghost predicate RouteClean(input: SolverInput, orders: Orders, vehicles: Vehicles, seenVehicles: set<Id>, seenOrders: set<Id>, route: SolverRoute)
    requires input.MatricesFit() && StartsInMatrix(input, vehicles)
  {
    forall c :: !RouteIssue(input, orders, vehicles, seenVehicles, seenOrders, route, c)
  }

  lemma {:induction false} CleanRouteHasCleanParts(input: SolverInput, orders: Orders, vehicles: Vehicles, seenVehicles: set<Id>, seenOrders: set<Id>, route: SolverRoute)
    requires input.MatricesFit() && StartsInMatrix(input, vehicles)
    requires RouteClean(input, orders, vehicles, seenVehicles, seenOrders, route)
    ensures route.vehicleId in vehicles && route.vehicleId !in seenVehicles
    ensures Served(orders, route.stops) !! seenOrders
    ensures PartsClean(input, orders, vehicles[route.vehicleId], route)
  {
    assert !RouteIssue(input, orders, vehicles, seenVehicles, seenOrders, route, UnknownVehicle);
    assert !RouteIssue(input, orders, vehicles, seenVehicles, seenOrders, route, VehicleRouteDuplicated);
    assert !RouteIssue(input, orders, vehicles, seenVehicles, seenOrders, route, StopSequenceInvalid);
    assert !RouteIssue(input, orders, vehicles, seenVehicles, seenOrders, route, OrderDuplicated);
    var vehicle := vehicles[route.vehicleId];
    forall k, c | 0 <= k < |route.stops| ensures !StopIssue(orders, Some(vehicle), route.stops, k, c) {
      assert !RouteIssue(input, orders, vehicles, seenVehicles, seenOrders, route, c);
    }
    forall c ensures !TravelIssue(input, Some(vehicle), route, c) {
      assert !RouteIssue(input, orders, vehicles, seenVehicles, seenOrders, route, c);
    }
    forall o, c | o in Served(orders, route.stops) ensures !GroupReports(orders, Some(vehicle), route, seenOrders, o, c) {
      assert !RouteIssue(input, orders, vehicles, seenVehicles, seenOrders, route, c);
    }
    forall o | o in Served(orders, route.stops)
      ensures o !in seenOrders && GroupClean(orders[o], vehicle, StopsOf(route.stops, o))
    {
      assert !GroupReports(orders, Some(vehicle), route, seenOrders, o, OrderDuplicated);
      forall c ensures !GroupIssue(orders[o], Some(vehicle), StopsOf(route.stops, o), c) {
        assert !GroupReports(orders, Some(vehicle), route, seenOrders, o, c);
      }
    }
  }

  lemma {:induction false} CleanPartsMakeCleanRoute(input: SolverInput, orders: Orders, vehicles: Vehicles, seenVehicles: set<Id>, seenOrders: set<Id>, route: SolverRoute)
    requires input.MatricesFit() && StartsInMatrix(input, vehicles)
    requires route.vehicleId in vehicles && route.vehicleId !in seenVehicles
    requires Served(orders, route.stops) !! seenOrders
    requires PartsClean(input, orders, vehicles[route.vehicleId], route)
    ensures RouteClean(input, orders, vehicles, seenVehicles, seenOrders, route)
  {
    var vehicle := vehicles[route.vehicleId];
    forall c ensures !RouteIssue(input, orders, vehicles, seenVehicles, seenOrders, route, c) {
      forall k | 0 <= k < |route.stops| ensures !StopIssue(orders, Some(vehicle), route.stops, k, c) {
        assert StopClean(orders, vehicle, route.stops, k);
      }
      forall o | o in Served(orders, route.stops) ensures !GroupReports(orders, Some(vehicle), route, seenOrders, o, c) {
        assert GroupClean(orders[o], vehicle, StopsOf(route.stops, o));
      }
    }
  }

  // ----- the whole result -----

  ghost predicate OnRoute(routes: seq<SolverRoute>, i: int, o: Id) {
    0 <= i < |routes| && exists k :: 0 <= k < |routes[i].stops| && routes[i].stops[k].orderId == o
  }

  ghost predicate ListedAt(unassigned: seq<SolverUnassigned>, j: int, o: Id) {
    0 <= j < |unassigned| && unassigned[j].orderId == o
  }

  /** On exactly one route and not listed, or on no route and listed exactly once. */
  ghost predicate SettledOnce(result: SolverResult, o: Id) {
    || (&& (exists i :: OnRoute(result.routes, i, o) && forall j :: OnRoute(result.routes, j, o) ==> j == i)
        && forall j :: !ListedAt(result.unassigned, j, o))
    || (&& (forall i :: !OnRoute(result.routes, i, o))
        && exists j :: ListedAt(result.unassigned, j, o) && forall k :: ListedAt(result.unassigned, k, o) ==> k == j)
  }

  ghost predicate FeasibleRouting(input: SolverInput, result: SolverResult)
    requires input.MatricesFit() && StartsInMatrix(input, VehiclesById(input.vehicles))
  {
    var orders, vehicles := OrdersById(input.orders), VehiclesById(input.vehicles);
    && (forall i :: 0 <= i < |result.routes| ==>
         && result.routes[i].vehicleId in vehicles
         && FeasibleRoute(input, orders, vehicles[result.routes[i].vehicleId], result.routes[i]))
    && (forall i, j :: 0 <= i < j < |result.routes| ==> result.routes[i].vehicleId != result.routes[j].vehicleId)
    && (forall o :: o in orders ==> SettledOnce(result, o))
    && (forall j :: 0 <= j < |result.unassigned| ==> result.unassigned[j].orderId in orders)
    && (forall f :: f in input.frozen ==> Kept(f, result.routes))
    && result.totalDistance == TotalDistance(result.routes, |result.routes|)
    && result.totalDuration == TotalDuration(result.routes, |result.routes|)
  }

  ghost predicate Accepted(input: SolverInput, result: SolverResult)
    requires input.MatricesFit() && StartsInMatrix(input, VehiclesById(input.vehicles))
  {
    forall c :: !Reported(input, result, c)
  }

  lemma {:induction false} DictionariesAreKnown(input: SolverInput)
    requires input.Valid()
    ensures StartsInMatrix(input, VehiclesById(input.vehicles))
    ensures KnownOrders(input, OrdersById(input.orders))
    ensures KnownVehicles(input, VehiclesById(input.vehicles))
  {
    OrdersByIdIs(input.orders);
    VehiclesByIdIs(input.vehicles);
  }

  lemma {:induction false} ServedByIs(orders: Orders, routes: seq<SolverRoute>, n: nat, o: Id)
    requires n <= |routes| && o in orders
    ensures o in ServedBy(orders, routes, n) <==> exists i :: i < n && OnRoute(routes, i, o)
  {
    if 0 < n {
      ServedByIs(orders, routes, n - 1, o);
      var stops := routes[n - 1].stops;
      if o in Served(orders, stops) {
        var k :| 0 <= k < |stops| && stops[k].orderId in orders && stops[k].orderId == o;
        assert OnRoute(routes, n - 1, o);
      }
    }
  }

  lemma {:induction false} DrivenByIs(routes: seq<SolverRoute>, n: nat, v: Id)
    requires n <= |routes|
    ensures v in DrivenBy(routes, n) <==> exists i :: 0 <= i < n && routes[i].vehicleId == v
  {
    if 0 < n { DrivenByIs(routes, n - 1, v); }
  }

  ghost predicate RoutesClean(input: SolverInput, routes: seq<SolverRoute>)
    requires input.MatricesFit() && StartsInMatrix(input, VehiclesById(input.vehicles))
  {
    forall i, c :: 0 <= i < |routes| ==> !RouteReports(input, routes, i, c)
  }

  ghost predicate RoutesFeasible(input: SolverInput, routes: seq<SolverRoute>)
    requires input.MatricesFit() && StartsInMatrix(input, VehiclesById(input.vehicles))
  {
    var orders, vehicles := OrdersById(input.orders), VehiclesById(input.vehicles);
    && (forall i :: 0 <= i < |routes| ==>
         routes[i].vehicleId in vehicles && FeasibleRoute(input, orders, vehicles[routes[i].vehicleId], routes[i]))
    && (forall i, j :: 0 <= i < j < |routes| ==> routes[i].vehicleId != routes[j].vehicleId)
    && (forall o, i, j :: o in orders && OnRoute(routes, i, o) && OnRoute(routes, j, o) ==> i == j)
  }

  lemma {:induction false} OnRouteIsServed(orders: Orders, routes: seq<SolverRoute>, i: nat, o: Id)
    requires o in orders && i < |routes|
    ensures OnRoute(routes, i, o) <==> o in Served(orders, routes[i].stops)
  {
    if o in Served(orders, routes[i].stops) {
      var k :| 0 <= k < |routes[i].stops| && routes[i].stops[k].orderId in orders && routes[i].stops[k].orderId == o;
    }
  }

  lemma {:induction false} CleanRoutesAreFeasible(input: SolverInput, routes: seq<SolverRoute>)
    requires input.Valid() && StartsInMatrix(input, VehiclesById(input.vehicles))
    requires RoutesClean(input, routes)
    ensures RoutesFeasible(input, routes)
  {
    var orders, vehicles := OrdersById(input.orders), VehiclesById(input.vehicles);
    DictionariesAreKnown(input);
    forall i | 0 <= i < |routes|
      ensures routes[i].vehicleId in vehicles && FeasibleRoute(input, orders, vehicles[routes[i].vehicleId], routes[i])
      ensures forall j :: 0 <= j < i ==> routes[j].vehicleId != routes[i].vehicleId
      ensures forall o, j :: o in orders && j < i && OnRoute(routes, j, o) ==> !OnRoute(routes, i, o)
    {
      forall c ensures !RouteIssue(input, orders, vehicles, DrivenBy(routes, i), ServedBy(orders, routes, i), routes[i], c) {
        assert !RouteReports(input, routes, i, c);
      }
      CleanRouteHasCleanParts(input, orders, vehicles, DrivenBy(routes, i), ServedBy(orders, routes, i), routes[i]);
      PartsCleanImpliesFeasible(input, orders, vehicles[routes[i].vehicleId], routes[i]);
      DrivenByIs(routes, i, routes[i].vehicleId);
      forall o, j | o in orders && j < i && OnRoute(routes, j, o) ensures !OnRoute(routes, i, o) {
        ServedByIs(orders, routes, i, o);
        OnRouteIsServed(orders, routes, i, o);
      }
    }
  }

  lemma {:induction false} FeasibleRoutesAreClean(input: SolverInput, routes: seq<SolverRoute>)
    requires input.Valid() && StartsInMatrix(input, VehiclesById(input.vehicles))
    requires RoutesFeasible(input, routes)
    ensures RoutesClean(input, routes)
  {
    var orders, vehicles := OrdersById(input.orders), VehiclesById(input.vehicles);
    DictionariesAreKnown(input);
    forall i, c | 0 <= i < |routes| ensures !RouteReports(input, routes, i, c) {
      FeasibleImpliesPartsClean(input, orders, vehicles[routes[i].vehicleId], routes[i]);
      DrivenByIs(routes, i, routes[i].vehicleId);
      forall o | o in Served(orders, routes[i].stops) ensures o !in ServedBy(orders, routes, i) {
        ServedByIs(orders, routes, i, o);
        OnRouteIsServed(orders, routes, i, o);
      }
      CleanPartsMakeCleanRoute(input, orders, vehicles, DrivenBy(routes, i), ServedBy(orders, routes, i), routes[i]);
    }
  }

  /** Settling: the checks on unassigned and forgotten orders. */
  ghost predicate SettlingClean(orders: Orders, result: SolverResult) {
    var taken := ServedBy(orders, result.routes, |result.routes|);
    && (forall i, c :: 0 <= i < |result.unassigned| ==> !UnassignedReports(orders, result.unassigned, taken, i, c))
    && (forall o :: o in orders ==> !Forgotten(taken, result.unassigned, o))
  }

  lemma {:induction false} CleanSettlingSettlesOnce(orders: Orders, result: SolverResult, o: Id)
    requires o in orders && SettlingClean(orders, result)
    requires forall i, j :: OnRoute(result.routes, i, o) && OnRoute(result.routes, j, o) ==> i == j
    ensures SettledOnce(result, o)
  {
    var n := |result.routes|;
    ServedByIs(orders, result.routes, n, o);
    var taken := ServedBy(orders, result.routes, n);
    forall j, k | ListedAt(result.unassigned, j, o) && ListedAt(result.unassigned, k, o) ensures j == k && o !in taken {
      assert !UnassignedReports(orders, result.unassigned, taken, j, OrderDuplicated);
      assert !UnassignedReports(orders, result.unassigned, taken, k, OrderDuplicated);
    }
    assert !Forgotten(taken, result.unassigned, o);
    if o !in taken {
      var j :| 0 <= j < |result.unassigned| && result.unassigned[j].orderId == o;
      assert ListedAt(result.unassigned, j, o);
    }
  }

  lemma {:induction false} SettledOnceIsClean(orders: Orders, result: SolverResult)
    requires forall o :: o in orders ==> SettledOnce(result, o)
    requires forall j :: 0 <= j < |result.unassigned| ==> result.unassigned[j].orderId in orders
    ensures SettlingClean(orders, result)
  {
    var n := |result.routes|;
    var taken := ServedBy(orders, result.routes, n);
    forall i, c | 0 <= i < |result.unassigned| ensures !UnassignedReports(orders, result.unassigned, taken, i, c) {
      var o := result.unassigned[i].orderId;
      assert SettledOnce(result, o) && ListedAt(result.unassigned, i, o);
      ServedByIs(orders, result.routes, n, o);
      forall j | 0 <= j < i ensures result.unassigned[j].orderId != o {
        assert ListedAt(result.unassigned, j, o) ==> j == i;
      }
    }
    forall o | o in orders ensures !Forgotten(taken, result.unassigned, o) {
      assert SettledOnce(result, o);
      ServedByIs(orders, result.routes, n, o);
      if j :| ListedAt(result.unassigned, j, o) {
        assert result.unassigned[j].orderId == o;
      }
    }
  }

  lemma {:induction false} AcceptedParts(input: SolverInput, result: SolverResult)
    requires input.Valid() && StartsInMatrix(input, VehiclesById(input.vehicles)) && result.status == Feasible
    ensures Accepted(input, result) <==>
              && RoutesClean(input, result.routes)
              && SettlingClean(OrdersById(input.orders), result)
              && (forall f :: f in input.frozen ==> Kept(f, result.routes))
              && result.totalDistance == TotalDistance(result.routes, |result.routes|)
              && result.totalDuration == TotalDuration(result.routes, |result.routes|)
  {
    var orders := OrdersById(input.orders);
    var taken := ServedBy(orders, result.routes, |result.routes|);
    if Accepted(input, result) {
      forall i, c | 0 <= i < |result.routes| ensures !RouteReports(input, result.routes, i, c) {
        assert !Reported(input, result, c);
      }
      forall i, c | 0 <= i < |result.unassigned| ensures !UnassignedReports(orders, result.unassigned, taken, i, c) {
        assert !Reported(input, result, c);
      }
      assert !Reported(input, result, OrderResultMissing);
      assert !Reported(input, result, FrozenTaskMissing);
      assert !Reported(input, result, TotalDistanceMismatch);
      assert !Reported(input, result, TotalDurationMismatch);
    }
  }

  lemma {:induction false} AcceptedIsFeasible(input: SolverInput, result: SolverResult)
    requires input.Valid() && StartsInMatrix(input, VehiclesById(input.vehicles)) && result.status == Feasible
    requires Accepted(input, result)
    ensures FeasibleRouting(input, result)
  {
    AcceptedParts(input, result);
    var orders := OrdersById(input.orders);
    CleanRoutesAreFeasible(input, result.routes);
    forall o | o in orders ensures SettledOnce(result, o) {
      CleanSettlingSettlesOnce(orders, result, o);
    }
    var taken := ServedBy(orders, result.routes, |result.routes|);
    forall j | 0 <= j < |result.unassigned| ensures result.unassigned[j].orderId in orders {
      assert !UnassignedReports(orders, result.unassigned, taken, j, UnknownOrder);
    }
  }

  lemma {:induction false} FeasibleIsAccepted(input: SolverInput, result: SolverResult)
    requires input.Valid() && StartsInMatrix(input, VehiclesById(input.vehicles)) && result.status == Feasible
    requires FeasibleRouting(input, result)
    ensures Accepted(input, result)
  {
    var orders := OrdersById(input.orders);
    forall o, i, j | o in orders && OnRoute(result.routes, i, o) && OnRoute(result.routes, j, o) ensures i == j {
      assert SettledOnce(result, o);
    }
    FeasibleRoutesAreClean(input, result.routes);
    SettledOnceIsClean(orders, result);
    AcceptedParts(input, result);
  }

  /** The checker is exact: a FEASIBLE result passes without an issue if and only if it is a
      feasible routing of the input. */
  lemma {:induction false} AcceptedIffFeasible(input: SolverInput, result: SolverResult)
    requires input.Valid() && result.status == Feasible
    ensures StartsInMatrix(input, VehiclesById(input.vehicles))
    ensures Accepted(input, result) <==> FeasibleRouting(input, result)
  {
    DictionariesAreKnown(input);
    if Accepted(input, result) { AcceptedIsFeasible(input, result); }
    if FeasibleRouting(input, result) { FeasibleIsAccepted(input, result); }
  }

  // ----- the gap in the distance check -----

  /** The same result, with another distance and duration claimed for route i and the totals
      adjusted. */
  function Claiming(result: SolverResult, i: nat, distance: nat, duration: nat): SolverResult
    requires i < |result.routes|
  {
    var route := result.routes[i];
    result.(routes := result.routes[i := route.(distance := distance, duration := duration)],
            totalDistance := result.totalDistance - route.distance + distance,
            totalDuration := result.totalDuration - route.duration + duration)
  }

  lemma {:induction false} TotalsOfClaim(result: SolverResult, i: nat, distance: nat, duration: nat, n: nat)
    requires i < |result.routes| && n <= |result.routes|
    ensures var routes, claimed := result.routes, Claiming(result, i, distance, duration).routes;
            && TotalDistance(claimed, n) == TotalDistance(routes, n) + (if i < n then distance - routes[i].distance else 0)
            && TotalDuration(claimed, n) == TotalDuration(routes, n) + (if i < n then duration - routes[i].duration else 0)
  {
    if 0 < n { TotalsOfClaim(result, i, distance, duration, n - 1); }
  }

  lemma {:induction false} SettledAlike(x: SolverResult, y: SolverResult, o: Id)
    requires y.unassigned == x.unassigned && SettledOnce(x, o)
    requires forall j :: OnRoute(y.routes, j, o) <==> OnRoute(x.routes, j, o)
    ensures SettledOnce(y, o)
  {
    if i :| OnRoute(x.routes, i, o) {
      assert OnRoute(y.routes, i, o);
    }
  }

  /** Which orders are settled and which tasks are kept depends on the stops alone. */
  lemma {:induction false} ClaimKeepsStops(result: SolverResult, i: nat, distance: nat, duration: nat)
    requires i < |result.routes|
    ensures forall o :: SettledOnce(Claiming(result, i, distance, duration), o) <==> SettledOnce(result, o)
    ensures forall f :: Kept(f, Claiming(result, i, distance, duration).routes) <==> Kept(f, result.routes)
  {
    var after := Claiming(result, i, distance, duration);
    var routes, claimed := result.routes, after.routes;
    assert forall j :: 0 <= j < |routes| ==> claimed[j].stops == routes[j].stops && claimed[j].vehicleId == routes[j].vehicleId;
    forall o ensures SettledOnce(after, o) <==> SettledOnce(result, o) {
      forall j ensures OnRoute(claimed, j, o) <==> OnRoute(routes, j, o) {
      }
      if SettledOnce(result, o) { SettledAlike(result, after, o); }
      if SettledOnce(after, o) { SettledAlike(after, result, o); }
    }
  }

  lemma {:induction false} ClaimedRoute(input: SolverInput, orders: Orders, vehicle: SolverVehicle, route: SolverRoute, distance: nat, duration: nat)
    requires input.MatricesFit() && vehicle.start in input.locations && FeasibleRoute(input, orders, vehicle, route)
    ensures FeasibleRoute(input, orders, vehicle, route.(distance := distance, duration := duration))
            <==> route.stops == [] || (distance == route.distance && duration == route.duration)
  {
  }

  lemma {:induction false} ClaimIsFeasibleIff(input: SolverInput, result: SolverResult, i: nat, distance: nat, duration: nat)
    requires input.MatricesFit() && StartsInMatrix(input, VehiclesById(input.vehicles))
    requires FeasibleRouting(input, result) && i < |result.routes|
    ensures FeasibleRouting(input, Claiming(result, i, distance, duration))
            <==> result.routes[i].stops == [] || (distance == result.routes[i].distance && duration == result.routes[i].duration)
  {
    var orders, vehicles := OrdersById(input.orders), VehiclesById(input.vehicles);
    var routes, claimed := result.routes, Claiming(result, i, distance, duration).routes;
    TotalsOfClaim(result, i, distance, duration, |routes|);
    ClaimKeepsStops(result, i, distance, duration);
    ClaimedRoute(input, orders, vehicles[routes[i].vehicleId], routes[i], distance, duration);
    assert forall j :: 0 <= j < |routes| && j != i ==> claimed[j] == routes[j];
    assert claimed[i].vehicleId == routes[i].vehicleId;
  }

  /** In any accepted result, claiming another length for a route is accepted exactly when the route
      is empty: the checks on distance and duration bind every route with a stop, and no other. */
  lemma {:induction false} EmptyRouteMayClaimAnyDistance(input: SolverInput, result: SolverResult, i: nat, distance: nat, duration: nat)
    requires input.Valid() && result.status == Feasible && i < |result.routes|
    requires StartsInMatrix(input, VehiclesById(input.vehicles)) && Accepted(input, result)
    ensures Accepted(input, Claiming(result, i, distance, duration))
            <==> result.routes[i].stops == [] || (distance == result.routes[i].distance && duration == result.routes[i].duration)
  {
    AcceptedIffFeasible(input, result);
    AcceptedIffFeasible(input, Claiming(result, i, distance, duration));
    ClaimIsFeasibleIff(input, result, i, distance, duration);
  }
}
