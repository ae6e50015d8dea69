/** SolverResultValidator.validate: the issues it reports, as a procedure and as a
    specification of when each code is reported. */
module Checker {
  import opened Ordering
  import opened Domain
  import opened Optimization

  datatype Code =
    | StatusResultConflict
    | UnknownVehicle | VehicleRouteDuplicated | StopSequenceInvalid
    | UnknownOrder | StopServiceTimeInvalid | StopLoadChangeInvalid | VehicleCapacityExceeded
    | PickupReadyTimeViolated | DeliveryWindowViolated | VehicleAvailabilityViolated
    | RouteTravelTimeInvalid | RouteDistanceMismatch | RouteDurationMismatch
    | OrderDuplicated | OrderStopSetInvalid | OriginLocationMismatch | DeliveryLocationMismatch
    | RequiredVehicleMismatch | StopPrecedenceInvalid
    | OrderResultMissing | FrozenTaskMissing | TotalDistanceMismatch | TotalDurationMismatch

  // ----- quantities the checks talk about -----

  type Orders = map<Id, SolverOrder>
  type Vehicles = map<Id, SolverVehicle>

  /** The reported load after the first n stops; stops of unknown orders are skipped. */
  function LoadAfter(orders: Orders, initial: int, stops: seq<SolverStop>, n: nat): int
    requires n <= |stops|
  {
    if n == 0 then initial
    else LoadAfter(orders, initial, stops, n - 1) + if stops[n - 1].orderId in orders then stops[n - 1].loadChange else 0
  }

  function PreviousLocation(vehicle: SolverVehicle, stops: seq<SolverStop>, k: nat): Id
    requires k <= |stops|
  {
    if k == 0 then vehicle.start else stops[k - 1].locationId
  }

  function PreviousDeparture(vehicle: SolverVehicle, stops: seq<SolverStop>, k: nat): int
    requires k <= |stops|
  {
    if k == 0 then vehicle.availableFrom else stops[k - 1].departure
  }

  ghost predicate Located(input: SolverInput, stops: seq<SolverStop>) {
    forall k :: 0 <= k < |stops| ==> stops[k].locationId in input.locations
  }

  /** The matrix distance of the first n legs. */
  function RouteDistance(input: SolverInput, vehicle: SolverVehicle, stops: seq<SolverStop>, n: nat): int
    requires input.MatricesFit() && vehicle.start in input.locations && Located(input, stops) && n <= |stops|
  {
    if n == 0 then 0
    else RouteDistance(input, vehicle, stops, n - 1)
         + Entry(input, input.distances, PreviousLocation(vehicle, stops, n - 1), stops[n - 1].locationId)
  }

  /** `stops_by_order[order_id]`. */
  function StopsOf(stops: seq<SolverStop>, o: Id): seq<SolverStop> {
    if stops == [] then []
    else StopsOf(stops[..|stops| - 1], o) + if stops[|stops| - 1].orderId == o then [stops[|stops| - 1]] else []
  }

  function OfKind(stops: seq<SolverStop>, kind: StopKind): seq<SolverStop> {
    if stops == [] then []
    else OfKind(stops[..|stops| - 1], kind) + if stops[|stops| - 1].kind == kind then [stops[|stops| - 1]] else []
  }

  /** The known orders among the first n stops. */
  ghost function Served(orders: Orders, stops: seq<SolverStop>): set<Id> {
    set k | 0 <= k < |stops| && stops[k].orderId in orders :: stops[k].orderId
  }

  function TotalDistance(routes: seq<SolverRoute>, n: nat): int
    requires n <= |routes|
  {
    if n == 0 then 0 else TotalDistance(routes, n - 1) + routes[n - 1].distance
  }

  function TotalDuration(routes: seq<SolverRoute>, n: nat): int
    requires n <= |routes|
  {
    if n == 0 then 0 else TotalDuration(routes, n - 1) + routes[n - 1].duration
  }

  // ----- when a code is reported -----

  /** Checks on one stop. */
  ghost predicate StopIssue(orders: Orders, vehicle: Option<SolverVehicle>, stops: seq<SolverStop>, k: nat, c: Code)
    requires k < |stops|
  {
    var stop := stops[k];
    if stop.orderId !in orders then c == UnknownOrder
    else
      var order := orders[stop.orderId];
      match c
      case StopServiceTimeInvalid =>
        stop.service != order.ServiceAt(stop.kind) || stop.departure != stop.arrival + order.ServiceAt(stop.kind)
      case StopLoadChangeInvalid => stop.loadChange != order.LoadChangeAt(stop.kind)
      case VehicleCapacityExceeded =>
        vehicle.Some?
        && !(0 <= LoadAfter(orders, vehicle.value.initialLoad, stops, k + 1) <= vehicle.value.capacity)
      case PickupReadyTimeViolated => stop.kind != Delivery && stop.arrival < order.ready
      case DeliveryWindowViolated =>
        stop.kind == Delivery && !(order.windowStart <= stop.arrival <= order.windowEnd)
      case VehicleAvailabilityViolated =>
        vehicle.Some?
        && !(vehicle.value.availableFrom <= stop.arrival && stop.departure <= vehicle.value.availableUntil)
      case _ => false
  }

  ghost predicate Unreachable(input: SolverInput, vehicle: SolverVehicle, stops: seq<SolverStop>, k: nat)
    requires input.MatricesFit() && vehicle.start in input.locations && Located(input, stops) && k < |stops|
  {
    stops[k].arrival < PreviousDeparture(vehicle, stops, k)
                       + Entry(input, input.durations, PreviousLocation(vehicle, stops, k), stops[k].locationId)
  }

  /** Checks on the legs of a route; skipped for an empty route, an unknown vehicle or a stop
      outside the matrix. */
  ghost predicate TravelIssue(input: SolverInput, vehicle: Option<SolverVehicle>, route: SolverRoute, c: Code)
    requires input.MatricesFit() && (vehicle.Some? ==> vehicle.value.start in input.locations)
  {
    && vehicle.Some? && route.stops != [] && Located(input, route.stops)
    && var n := |route.stops|;
       match c
       case RouteTravelTimeInvalid => exists k :: 0 <= k < n && Unreachable(input, vehicle.value, route.stops, k)
       case RouteDistanceMismatch => route.distance != RouteDistance(input, vehicle.value, route.stops, n)
       case RouteDurationMismatch => route.duration != route.stops[n - 1].departure - vehicle.value.availableFrom
       case _ => false
  }

  /** Checks on the stops of one order on a route. */
  ghost predicate GroupIssue(order: SolverOrder, vehicle: Option<SolverVehicle>, stops: seq<SolverStop>, c: Code) {
    var delivery := OfKind(stops, Delivery);
    if order.DeliveryOnly() then
      match c
      case OrderStopSetInvalid => |delivery| != 1 || |stops| != 1
      case DeliveryLocationMismatch => delivery != [] && delivery[0].locationId != order.delivery
      case RequiredVehicleMismatch => vehicle.Some? && order.requiredVehicle != Some(vehicle.value.vehicleId)
      case _ => false
    else
      var origin := OfKind(stops, order.OriginKind());
      if |origin| != 1 || |delivery| != 1 || |stops| != 2 then c == OrderStopSetInvalid
      else
        match c
        case OriginLocationMismatch => Some(origin[0].locationId) != order.Origin()
        case DeliveryLocationMismatch => delivery[0].locationId != order.delivery
        case StopPrecedenceInvalid => origin[0].sequenceNo >= delivery[0].sequenceNo
        case _ => false
  }

  /** Checks on one order of a route, given the orders of the routes before it. */
  ghost predicate GroupReports(orders: Orders, vehicle: Option<SolverVehicle>, route: SolverRoute,
                               seenOrders: set<Id>, o: Id, c: Code)
    requires o in orders
  {
    (c == OrderDuplicated && o in seenOrders) || GroupIssue(orders[o], vehicle, StopsOf(route.stops, o), c)
  }

  function VehicleOf(vehicles: Vehicles, route: SolverRoute): Option<SolverVehicle> {
    if route.vehicleId in vehicles then Some(vehicles[route.vehicleId]) else None
  }

  /** Checks on one route, given the vehicles and orders of the routes before it. */
  ghost predicate RouteIssue(input: SolverInput, orders: Orders, vehicles: Vehicles,
                             seenVehicles: set<Id>, seenOrders: set<Id>, route: SolverRoute, c: Code)
    requires input.MatricesFit() && forall v :: v in vehicles ==> vehicles[v].start in input.locations
  {
    var vehicle := VehicleOf(vehicles, route);
    || (c == UnknownVehicle && vehicle == None)
    || (c == VehicleRouteDuplicated && route.vehicleId in seenVehicles)
    || (c == StopSequenceInvalid && exists k :: 0 <= k < |route.stops| && route.stops[k].sequenceNo != k + 1)
    || (exists k :: 0 <= k < |route.stops| && StopIssue(orders, vehicle, route.stops, k, c))
    || TravelIssue(input, vehicle, route, c)
    || (exists o :: o in Served(orders, route.stops) && GroupReports(orders, vehicle, route, seenOrders, o, c))
  }

  // ----- the procedure, inside out -----

  /** One stop of the first loop over a route. */
  method CheckStop(order: SolverOrder, vehicle: Option<SolverVehicle>, stop: SolverStop, load: int) returns (issues: seq<Code>)
    ensures forall c :: c in issues <==>
      match c
      case StopServiceTimeInvalid =>
        stop.service != order.ServiceAt(stop.kind) || stop.departure != stop.arrival + order.ServiceAt(stop.kind)
      case StopLoadChangeInvalid => stop.loadChange != order.LoadChangeAt(stop.kind)
      case VehicleCapacityExceeded => vehicle.Some? && !(0 <= load <= vehicle.value.capacity)
      case PickupReadyTimeViolated => stop.kind != Delivery && stop.arrival < order.ready
      case DeliveryWindowViolated =>
        stop.kind == Delivery && !(order.windowStart <= stop.arrival <= order.windowEnd)
      case VehicleAvailabilityViolated =>
        vehicle.Some?
        && !(vehicle.value.availableFrom <= stop.arrival && stop.departure <= vehicle.value.availableUntil)
      case _ => false
  {
    issues := [];
    var expectedService := order.ServiceAt(stop.kind);
    var expectedLoadChange := if stop.kind == Delivery then -order.demand else order.demand;
    if stop.service != expectedService || stop.departure != stop.arrival + expectedService {
      issues := issues + [StopServiceTimeInvalid];
    }
    if stop.loadChange != expectedLoadChange {
      issues := issues + [StopLoadChangeInvalid];
    }
    if vehicle.Some? && (load < 0 || load > vehicle.value.capacity) {
      issues := issues + [VehicleCapacityExceeded];
    }
    if (stop.kind == Pickup || stop.kind == Handover) && stop.arrival < order.ready {
      issues := issues + [PickupReadyTimeViolated];
    }
    if stop.kind == Delivery && !(order.windowStart <= stop.arrival <= order.windowEnd) {
      issues := issues + [DeliveryWindowViolated];
    }
    if vehicle.Some? &&
       !(vehicle.value.availableFrom <= stop.arrival && stop.departure <= vehicle.value.availableUntil) {
      issues := issues + [VehicleAvailabilityViolated];
    }
  }

  lemma {:induction false} StopsOfSnoc(stops: seq<SolverStop>, k: nat, o: Id)
    requires k < |stops|
    ensures StopsOf(stops[..k + 1], o) == StopsOf(stops[..k], o) + if stops[k].orderId == o then [stops[k]] else []
  {
    assert stops[..k + 1][..k] == stops[..k];
  }

  ghost predicate Grouped(orders: Orders, stops: seq<SolverStop>, groups: map<Id, seq<SolverStop>>) {
    && groups.Keys == Served(orders, stops)
    && forall o :: o in groups ==> groups[o] == StopsOf(stops, o)
  }

  lemma {:induction false} StopsOfUnserved(orders: Orders, stops: seq<SolverStop>, o: Id)
    requires o in orders && o !in Served(orders, stops)
    ensures StopsOf(stops, o) == []
  {
    if stops != [] {
      var last := stops[|stops| - 1];
      assert last.orderId != o;
      StopsOfUnserved(orders, stops[..|stops| - 1], o);
    }
  }

  lemma {:induction false} ServedSnoc(orders: Orders, stops: seq<SolverStop>, k: nat)
    requires k < |stops|
    ensures Served(orders, stops[..k + 1]) ==
              Served(orders, stops[..k]) + if stops[k].orderId in orders then {stops[k].orderId} else {}
  {
    var longer := stops[..k + 1];
    assert longer[k] == stops[k];
    assert forall i :: 0 <= i < k ==> longer[i] == stops[..k][i];
  }

  lemma {:induction false} GroupedSnoc(orders: Orders, stops: seq<SolverStop>, k: nat, groups: map<Id, seq<SolverStop>>)
    requires k < |stops| && Grouped(orders, stops[..k], groups)
    ensures stops[k].orderId !in orders ==> Grouped(orders, stops[..k + 1], groups)
    ensures stops[k].orderId in orders ==>
              Grouped(orders, stops[..k + 1],
                      groups[stops[k].orderId := (if stops[k].orderId in groups then groups[stops[k].orderId] else []) + [stops[k]]])
  {
    var id := stops[k].orderId;
    forall o ensures StopsOf(stops[..k + 1], o) == StopsOf(stops[..k], o) + if id == o then [stops[k]] else [] {
      StopsOfSnoc(stops, k, o);
    }
    ServedSnoc(orders, stops, k);
    if id in orders && id !in groups {
      StopsOfUnserved(orders, stops[..k], id);
    }
  }

  /** The first loop over a route: running load and `stops_by_order`. */
  method CheckStops(orders: Orders, vehicle: Option<SolverVehicle>, route: SolverRoute)
    returns (issues: seq<Code>, stopsByOrder: map<Id, seq<SolverStop>>)
    ensures forall c :: c in issues <==> exists k :: 0 <= k < |route.stops| && StopIssue(orders, vehicle, route.stops, k, c)
    ensures Grouped(orders, route.stops, stopsByOrder)
  {
    issues, stopsByOrder := [], map[];
    var initial := if vehicle.Some? then vehicle.value.initialLoad else 0;
    var load := initial;
    var k := 0;
    assert route.stops[..0] == [];
    while k < |route.stops|
      invariant 0 <= k <= |route.stops|
      invariant load == LoadAfter(orders, initial, route.stops, k)
      invariant forall c :: c in issues <==> exists i :: 0 <= i < k && StopIssue(orders, vehicle, route.stops, i, c)
      invariant Grouped(orders, route.stops[..k], stopsByOrder)
    {
      var stop := route.stops[k];
      var found: seq<Code>;
      GroupedSnoc(orders, route.stops, k, stopsByOrder);
      if stop.orderId !in orders {
        found := [UnknownOrder];
      } else {
        load := load + stop.loadChange;
        found := CheckStop(orders[stop.orderId], vehicle, stop, load);
        var group := if stop.orderId in stopsByOrder then stopsByOrder[stop.orderId] else [];
        stopsByOrder := stopsByOrder[stop.orderId := group + [stop]];
      }
      assert forall c :: c in found <==> StopIssue(orders, vehicle, route.stops, k, c);
      issues := issues + found;
      k := k + 1;
    }
    assert route.stops[..k] == route.stops;
  }

  /** The second loop over a route: expected distance and running clock. */
  method DriveLegs(input: SolverInput, v: SolverVehicle, stops: seq<SolverStop>) returns (issues: seq<Code>, expectedDistance: int)
    requires input.MatricesFit() && v.start in input.locations && Located(input, stops)
    ensures expectedDistance == RouteDistance(input, v, stops, |stops|)
    ensures forall c :: c in issues <==>
              c == RouteTravelTimeInvalid && exists i :: 0 <= i < |stops| && Unreachable(input, v, stops, i)
  {
    issues := [];
    expectedDistance := 0;
    var previousLocation, previousDeparture := v.start, v.availableFrom;
    var k := 0;
    while k < |stops|
      invariant 0 <= k <= |stops|
      invariant expectedDistance == RouteDistance(input, v, stops, k)
      invariant previousLocation == PreviousLocation(v, stops, k)
      invariant previousDeparture == PreviousDeparture(v, stops, k)
      invariant forall c :: c in issues <==>
                  c == RouteTravelTimeInvalid && exists i :: 0 <= i < k && Unreachable(input, v, stops, i)
    {
      var stop := stops[k];
      expectedDistance := expectedDistance + Entry(input, input.distances, previousLocation, stop.locationId);
      var travelSeconds := Entry(input, input.durations, previousLocation, stop.locationId);
      if stop.arrival < previousDeparture + travelSeconds {
        assert Unreachable(input, v, stops, k);
        issues := issues + [RouteTravelTimeInvalid];
      }
      previousLocation, previousDeparture := stop.locationId, stop.departure;
      k := k + 1;
    }
  }

  method CheckTravel(input: SolverInput, vehicle: Option<SolverVehicle>, route: SolverRoute) returns (issues: seq<Code>)
    requires input.MatricesFit() && (vehicle.Some? ==> vehicle.value.start in input.locations)
    ensures forall c :: c in issues <==> TravelIssue(input, vehicle, route, c)
  {
    var stops := route.stops;
    var located := forall k :: 0 <= k < |stops| ==> stops[k].locationId in input.locations;
    assert located == Located(input, stops);
    if vehicle == None || stops == [] || !located {
      return [];
    }
    var expectedDistance;
    issues, expectedDistance := DriveLegs(input, vehicle.value, stops);
    if route.distance != expectedDistance {
      issues := issues + [RouteDistanceMismatch];
    }
    var expectedDuration := stops[|stops| - 1].departure - vehicle.value.availableFrom;
    if route.duration != expectedDuration {
      issues := issues + [RouteDurationMismatch];
    }
  }

  /** One entry of `stops_by_order`. */
  method CheckGroup(order: SolverOrder, vehicle: Option<SolverVehicle>, stops: seq<SolverStop>) returns (issues: seq<Code>)
    ensures forall c :: c in issues <==> GroupIssue(order, vehicle, stops, c)
  {
    issues := [];
    var delivery := OfKind(stops, Delivery);
    if order.pickup == None && order.handover == None {
      if |delivery| != 1 || |stops| != 1 {
        issues := issues + [OrderStopSetInvalid];
      }
      if delivery != [] && delivery[0].locationId != order.delivery {
        issues := issues + [DeliveryLocationMismatch];
      }
      if vehicle.Some? && order.requiredVehicle != Some(vehicle.value.vehicleId) {
        issues := issues + [RequiredVehicleMismatch];
      }
      return;
    }
    var origin := OfKind(stops, if order.pickup.Some? then Pickup else Handover);
    if |origin| != 1 || |delivery| != 1 || |stops| != 2 {
      return [OrderStopSetInvalid];
    }
    var expectedOrigin := if order.pickup.Some? then order.pickup else order.handover;
    if Some(origin[0].locationId) != expectedOrigin {
      issues := issues + [OriginLocationMismatch];
    }
    if delivery[0].locationId != order.delivery {
      issues := issues + [DeliveryLocationMismatch];
    }
    if origin[0].sequenceNo >= delivery[0].sequenceNo {
      issues := issues + [StopPrecedenceInvalid];
    }
  }

  /** The loop over `stops_by_order.items()`; the order of the entries does not matter. */
  method CheckGroups(orders: Orders, vehicle: Option<SolverVehicle>, route: SolverRoute,
                     stopsByOrder: map<Id, seq<SolverStop>>, taken: set<Id>)
    returns (issues: seq<Code>, nowTaken: set<Id>)
    requires Grouped(orders, route.stops, stopsByOrder)
    ensures nowTaken == taken + Served(orders, route.stops)
    ensures forall c :: c in issues <==>
              exists o :: o in Served(orders, route.stops) && GroupReports(orders, vehicle, route, taken, o, c)
  {
    issues, nowTaken := [], taken;
    var todo := stopsByOrder.Keys;
    while todo != {}
      invariant todo <= Served(orders, route.stops)
      invariant nowTaken == taken + (Served(orders, route.stops) - todo)
      invariant forall c :: c in issues <==>
                  exists o :: o in Served(orders, route.stops) && o !in todo && GroupReports(orders, vehicle, route, taken, o, c)
    {
      var o :| o in todo;
      var found := CheckGroup(orders[o], vehicle, stopsByOrder[o]);
      if o in nowTaken {
        found := [OrderDuplicated] + found;
      }
      assert forall c :: c in found <==> GroupReports(orders, vehicle, route, taken, o, c);
      nowTaken := nowTaken + {o};
      todo := todo - {o};
      issues := issues + found;
    }
  }

  ghost predicate StartsInMatrix(input: SolverInput, vehicles: Vehicles) {
    forall v :: v in vehicles ==> vehicles[v].start in input.locations
  }

  /** One route of the outer loop. */
  method CheckRoute(input: SolverInput, orders: Orders, vehicles: Vehicles, seenVehicles: set<Id>, taken: set<Id>, route: SolverRoute)
    returns (issues: seq<Code>, nowTaken: set<Id>)
    requires input.MatricesFit() && StartsInMatrix(input, vehicles)
    ensures nowTaken == taken + Served(orders, route.stops)
    ensures forall c :: c in issues <==> RouteIssue(input, orders, vehicles, seenVehicles, taken, route, c)
  {
    var header: seq<Code> := [];
    if route.vehicleId !in vehicles {
      header := header + [UnknownVehicle];
    }
    if route.vehicleId in seenVehicles {
      header := header + [VehicleRouteDuplicated];
    }
    if exists k :: 0 <= k < |route.stops| && route.stops[k].sequenceNo != k + 1 {
      header := header + [StopSequenceInvalid];
    }
    var vehicle := VehicleOf(vehicles, route);
    var stopIssues, stopsByOrder := CheckStops(orders, vehicle, route);
    var travelIssues := CheckTravel(input, vehicle, route);
    var groupIssues;
    groupIssues, nowTaken := CheckGroups(orders, vehicle, route, stopsByOrder, taken);
    issues := header + stopIssues + travelIssues + groupIssues;
  }

  /** The orders and vehicles of the first n routes. */
  ghost function ServedBy(orders: Orders, routes: seq<SolverRoute>, n: nat): set<Id>
    requires n <= |routes|
  {
    if n == 0 then {} else ServedBy(orders, routes, n - 1) + Served(orders, routes[n - 1].stops)
  }

  ghost function DrivenBy(routes: seq<SolverRoute>, n: nat): set<Id>
    requires n <= |routes|
  {
    if n == 0 then {} else DrivenBy(routes, n - 1) + {routes[n - 1].vehicleId}
  }

  /** Route i is reported for c. */
  ghost predicate RouteReports(input: SolverInput, routes: seq<SolverRoute>, i: nat, c: Code)
    requires input.MatricesFit() && i < |routes| && StartsInMatrix(input, VehiclesById(input.vehicles))
  {
    var orders := OrdersById(input.orders);
    RouteIssue(input, orders, VehiclesById(input.vehicles), DrivenBy(routes, i), ServedBy(orders, routes, i), routes[i], c)
  }

  ghost predicate UnassignedReports(orders: Orders, unassigned: seq<SolverUnassigned>, taken: set<Id>, i: nat, c: Code)
    requires i < |unassigned|
  {
    || (c == UnknownOrder && unassigned[i].orderId !in orders)
    || (c == OrderDuplicated &&
         (unassigned[i].orderId in taken || exists j :: 0 <= j < i && unassigned[j].orderId == unassigned[i].orderId))
  }

  /** Neither on a route nor reported as unassigned. */
  ghost predicate Forgotten(taken: set<Id>, unassigned: seq<SolverUnassigned>, o: Id) {
    o !in taken && forall j :: 0 <= j < |unassigned| ==> unassigned[j].orderId != o
  }

  ghost predicate Kept(frozen: FrozenTask, routes: seq<SolverRoute>) {
    exists i :: 0 <= i < |routes| && routes[i].vehicleId == frozen.vehicleId && frozen.stop in routes[i].stops
  }

  /** Checks on the result as a whole. */
  ghost predicate ResultIssue(input: SolverInput, result: SolverResult, c: Code) {
    var orders := OrdersById(input.orders);
    var taken := ServedBy(orders, result.routes, |result.routes|);
    || (exists i :: 0 <= i < |result.unassigned| && UnassignedReports(orders, result.unassigned, taken, i, c))
    || (c == OrderResultMissing && exists o :: o in orders && Forgotten(taken, result.unassigned, o))
    || (c == FrozenTaskMissing && exists f :: f in input.frozen && !Kept(f, result.routes))
    || (c == TotalDistanceMismatch && result.totalDistance != TotalDistance(result.routes, |result.routes|))
    || (c == TotalDurationMismatch && result.totalDuration != TotalDuration(result.routes, |result.routes|))
  }

  /** When `validate` reports code c. */
  ghost predicate Reported(input: SolverInput, result: SolverResult, c: Code)
    requires input.MatricesFit() && StartsInMatrix(input, VehiclesById(input.vehicles))
  {
    if result.status != Feasible then
      c == StatusResultConflict && (result.routes != [] || result.totalDistance != 0 || result.totalDuration != 0)
    else
      || (exists i :: 0 <= i < |result.routes| && RouteReports(input, result.routes, i, c))
      || ResultIssue(input, result, c)
  }

  method CheckRoutes(input: SolverInput, orders: Orders, vehicles: Vehicles, routes: seq<SolverRoute>)
    returns (issues: seq<Code>, taken: set<Id>)
    requires input.MatricesFit() && StartsInMatrix(input, vehicles)
    requires orders == OrdersById(input.orders) && vehicles == VehiclesById(input.vehicles)
    ensures taken == ServedBy(orders, routes, |routes|)
    ensures forall c :: c in issues <==> exists i :: 0 <= i < |routes| && RouteReports(input, routes, i, c)
  {
    issues, taken := [], {};
    var seenVehicles: set<Id> := {};
    var i := 0;
    while i < |routes|
      invariant 0 <= i <= |routes|
      invariant taken == ServedBy(orders, routes, i) && seenVehicles == DrivenBy(routes, i)
      invariant forall c :: c in issues <==> exists j :: 0 <= j < i && RouteReports(input, routes, j, c)
    {
      var found;
      found, taken := CheckRoute(input, orders, vehicles, seenVehicles, taken, routes[i]);
      assert forall c :: c in found <==> RouteReports(input, routes, i, c);
      seenVehicles := seenVehicles + {routes[i].vehicleId};
      issues := issues + found;
      i := i + 1;
    }
  }

  method CheckUnassigned(orders: Orders, unassigned: seq<SolverUnassigned>, taken: set<Id>)
    returns (issues: seq<Code>, unassignedIds: set<Id>)
    ensures unassignedIds == set j | 0 <= j < |unassigned| :: unassigned[j].orderId
    ensures forall c :: c in issues <==>
              exists i :: 0 <= i < |unassigned| && UnassignedReports(orders, unassigned, taken, i, c)
  {
    issues, unassignedIds := [], {};
    var i := 0;
    while i < |unassigned|
      invariant 0 <= i <= |unassigned|
      invariant unassignedIds == set j | 0 <= j < i :: unassigned[j].orderId
      invariant forall c :: c in issues <==> exists j :: 0 <= j < i && UnassignedReports(orders, unassigned, taken, j, c)
    {
      var id := unassigned[i].orderId;
      var found: seq<Code> := [];
      if id !in orders {
        found := found + [UnknownOrder];
      }
      if id in unassignedIds || id in taken {
        found := found + [OrderDuplicated];
      }
      assert forall c :: c in found <==> UnassignedReports(orders, unassigned, taken, i, c);
      unassignedIds := unassignedIds + {id};
      issues := issues + found;
      i := i + 1;
    }
  }

  method CheckFrozen(frozen: seq<FrozenTask>, routes: seq<SolverRoute>) returns (issues: seq<Code>)
    ensures forall c :: c in issues <==> c == FrozenTaskMissing && exists f :: f in frozen && !Kept(f, routes)
  {
    issues := [];
    for i := 0 to |frozen|
      invariant forall c :: c in issues <==> c == FrozenTaskMissing && exists f :: f in frozen[..i] && !Kept(f, routes)
    {
      var f := frozen[i];
      assert frozen[..i + 1] == frozen[..i] + [f];
      var kept := exists r :: 0 <= r < |routes| && routes[r].vehicleId == f.vehicleId && f.stop in routes[r].stops;
      assert kept == Kept(f, routes);
      if !kept {
        issues := issues + [FrozenTaskMissing];
      }
    }
    assert frozen[..|frozen|] == frozen;
  }

  lemma {:induction false} VehiclesStartInMatrix(input: SolverInput)
    requires input.Valid()
    ensures StartsInMatrix(input, VehiclesById(input.vehicles))
  {
    VehiclesByIdIs(input.vehicles);
  }

  method CheckMissing(orders: Orders, taken: set<Id>, unassigned: seq<SolverUnassigned>, unassignedIds: set<Id>)
    returns (issues: seq<Code>)
    requires unassignedIds == set j | 0 <= j < |unassigned| :: unassigned[j].orderId
    ensures forall c :: c in issues <==> c == OrderResultMissing && exists o :: o in orders && Forgotten(taken, unassigned, o)
  {
    var missing := orders.Keys - taken - unassignedIds;
    issues := if missing != {} then [OrderResultMissing] else [];
    assert forall o :: o in missing <==> o in orders && Forgotten(taken, unassigned, o);
  }

  method CheckTotals(result: SolverResult) returns (issues: seq<Code>)
    ensures forall c :: c in issues <==>
              || (c == TotalDistanceMismatch && result.totalDistance != TotalDistance(result.routes, |result.routes|))
              || (c == TotalDurationMismatch && result.totalDuration != TotalDuration(result.routes, |result.routes|))
  {
    issues := [];
    if result.totalDistance != TotalDistance(result.routes, |result.routes|) {
      issues := issues + [TotalDistanceMismatch];
    }
    if result.totalDuration != TotalDuration(result.routes, |result.routes|) {
      issues := issues + [TotalDurationMismatch];
    }
  }

  /** The checks after the loop over the routes. */
  method CheckResult(input: SolverInput, orders: Orders, taken: set<Id>, result: SolverResult) returns (issues: seq<Code>)
    requires orders == OrdersById(input.orders) && taken == ServedBy(orders, result.routes, |result.routes|)
    ensures forall c :: c in issues <==> ResultIssue(input, result, c)
  {
    var unassignedIssues, unassignedIds := CheckUnassigned(orders, result.unassigned, taken);
    var missingIssues := CheckMissing(orders, taken, result.unassigned, unassignedIds);
    var frozenIssues := CheckFrozen(input.frozen, result.routes);
    var totals := CheckTotals(result);
    issues := unassignedIssues + missingIssues + frozenIssues + totals;
  }

  /** `validate`: a code is reported exactly when its condition holds. */
  method Validate(input: SolverInput, result: SolverResult) returns (issues: seq<Code>)
    requires input.Valid()
    ensures StartsInMatrix(input, VehiclesById(input.vehicles))
    ensures forall c :: c in issues <==> Reported(input, result, c)
  {
    VehiclesStartInMatrix(input);
    if result.status != Feasible {
      if result.routes != [] || result.totalDistance != 0 || result.totalDuration != 0 {
        return [StatusResultConflict];
      }
      return [];
    }
    var orders, vehicles := OrdersById(input.orders), VehiclesById(input.vehicles);
    var routeIssues, taken := CheckRoutes(input, orders, vehicles, result.routes);
    var resultIssues := CheckResult(input, orders, taken, result);
    issues := routeIssues + resultIssues;
  }
}
