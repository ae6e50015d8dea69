/** StopExecutionService: moving a stop on, together with its order, route, vehicle,
    driver and assignment. */
module Execution {
  import opened Ordering
  import opened Domain
  import opened Risk

  /** Where a stop row lives: its route and its position in sequence order. */
  datatype Place = Place(routeId: Id, at: nat)

  /** The tables a stop action reads and writes. */
  datatype World = World(
    plans: map<Id, PlanStatus>,
    index: map<Id, Place>,
    routes: map<Id, Route>,
    orders: map<Id, Order>,
    vehicles: map<Id, ResourceStatus>,
    drivers: map<Id, ResourceStatus>,
    assignments: map<Id, Assignment>)

  /** arrive, start_service and complete. */
  datatype Action = Arrive | StartService | Complete

  function Target(a: Action): StopStatus {
    match a case Arrive => Arrived case StartService => InService case Complete => Completed
  }

  function Expected(a: Action): StopStatus {
    match a case Arrive => Planned case StartService => Arrived case Complete => InService
  }

  datatype Outcome =
    | Done
    | StopNotFound | RouteNotFound | BasePlanNotCurrent | ResourceMissing
    | InvalidStopTransition | InvalidEventTime
    | VehicleNotAvailable | DriverNotAvailable | InvalidAssignment

  // ----- the checks -----

  predicate Found(w: World, stopId: Id) {
    stopId in w.index
  }

  predicate OnKnownRoute(w: World, stopId: Id) {
    Found(w, stopId) && var p := w.index[stopId]; p.routeId in w.routes && p.at < |w.routes[p.routeId].stops|
  }

  predicate Equipped(w: World, stopId: Id)
    requires OnKnownRoute(w, stopId)
  {
    var p := w.index[stopId];
    var route := w.routes[p.routeId];
    && route.stops[p.at].orderId in w.orders && route.vehicleId in w.vehicles
    && route.driverId in w.drivers && route.assignmentId in w.assignments
    && forall i :: 0 <= i < |route.stops| ==> route.stops[i].orderId in w.orders
  }

  /** `_validate_sequence`. */
  predicate SequenceOk(stops: seq<Stop>, k: nat)
    requires k < |stops|
  {
    forall i :: 0 <= i < |stops| && stops[i].sequenceNo < stops[k].sequenceNo ==> stops[i].status == Completed
  }

  /** The last listed stop with a smaller sequence number. */
  function Previous(stops: seq<Stop>, sequenceNo: int): Option<Stop> {
    if stops == [] then None
    else if stops[|stops| - 1].sequenceNo < sequenceNo then Some(stops[|stops| - 1])
    else Previous(stops[..|stops| - 1], sequenceNo)
  }

  /** `_validate_event_time`. */
  predicate EventTimeOk(stops: seq<Stop>, k: nat, t: Instant, target: StopStatus)
    requires k < |stops|
  {
    var previous := Previous(stops, stops[k].sequenceNo);
    && !(previous.Some? && previous.value.actualDeparture.Some? && t < previous.value.actualDeparture.value)
    && !(target == Completed && stops[k].actualArrival.Some? && t < stops[k].actualArrival.value)
  }

  /** The first check that fails, in the order of the source; `Done` when none does. */
  function Verdict(w: World, stopId: Id, a: Action, t: Instant): Outcome {
    if !Found(w, stopId) then StopNotFound
    else if !OnKnownRoute(w, stopId) then RouteNotFound
    else
      var p := w.index[stopId];
      var route := w.routes[p.routeId];
      if route.planId !in w.plans || w.plans[route.planId] != PlanCurrent then BasePlanNotCurrent
      else if !Equipped(w, stopId) then ResourceMissing
      else if route.stops[p.at].status == Target(a) then Done
      else if route.stops[p.at].status != Expected(a) then InvalidStopTransition
      else if !SequenceOk(route.stops, p.at) then InvalidStopTransition
      else if !EventTimeOk(route.stops, p.at, t, Target(a)) then InvalidEventTime
      else if route.status == RouteCancelled || route.status == RouteCompleted then InvalidStopTransition
      else if w.vehicles[route.vehicleId] == Unavailable then VehicleNotAvailable
      else if w.drivers[route.driverId] == Unavailable then DriverNotAvailable
      else if w.assignments[route.assignmentId].status in {AssignmentEnded, AssignmentCancelled} then InvalidAssignment
      else Done
  }

  /** The action passes every check and is not a repetition. */
  predicate Takes(w: World, stopId: Id, a: Action, t: Instant) {
    && Verdict(w, stopId, a, t) == Done
    && var p := w.index[stopId]; w.routes[p.routeId].stops[p.at].status != Target(a)
  }

  // ----- the effects -----

  function Rank(s: OrderStatus): nat {
    match s
    case OrderPlanned => 0
    case PickupInProgress => 1
    case PickedUp => 2
    case Delivering => 3
    case OrderCompleted => 4
  }

  /** What `_advance_order` wants the order to be when a stop of this kind gets this status. */
  function Desired(kind: StopKind, target: StopStatus): Option<OrderStatus> {
    match kind
    case Pickup =>
      if target == Arrived then Some(PickupInProgress) else if target == Completed then Some(PickedUp) else None
    case Delivery =>
      if target == Arrived || target == InService then Some(Delivering)
      else if target == Completed then Some(OrderCompleted) else None
    case Handover =>
      if target == Planned then None else Some(Delivering)
  }

  function Advanced(order: Order, kind: StopKind, target: StopStatus): Order {
    var desired := Desired(kind, target);
    if desired == None then order
    else
      var raised := if Rank(desired.value) > Rank(order.status) then order.(status := desired.value) else order;
      if desired.value == OrderCompleted then raised.(risk := Normal) else raised
  }

  function MovedStop(stop: Stop, target: StopStatus, t: Instant): Stop {
    var moved := stop.(status := target);
    if target == Arrived then moved.(actualArrival := Some(t))
    else if target == Completed then moved.(actualDeparture := Some(t))
    else moved
  }

  /** `recalculate_route` for the first n stops. */
  function Recalculated(threshold: nat, stops: seq<Stop>, delay: nat, orders: map<Id, Order>, n: nat): map<Id, Order>
    requires n <= |stops|
  {
    if n == 0 then orders
    else
      var before := Recalculated(threshold, stops, delay, orders, n - 1);
      var stop := stops[n - 1];
      if stop.kind != Delivery || stop.orderId !in before then before
      else
        var order := before[stop.orderId];
        before[stop.orderId := order.(risk :=
          if stop.status == Completed then Normal
          else StatusForEta(threshold, stop.plannedArrival + delay, Or(stop.windowEnd, order.windowEnd)))]
  }

  lemma {:induction false} RecalculatedKeys(threshold: nat, stops: seq<Stop>, delay: nat, orders: map<Id, Order>, n: nat)
    requires n <= |stops|
    ensures Recalculated(threshold, stops, delay, orders, n).Keys == orders.Keys
  {
    if 0 < n { RecalculatedKeys(threshold, stops, delay, orders, n - 1); }
  }

  predicate AllCompleted(stops: seq<Stop>) {
    forall i :: 0 <= i < |stops| ==> stops[i].status == Completed
  }

  function Started(route: Route, t: Instant): Route {
    if route.status == RoutePlanned then route.(status := RouteActive, actualStart := Some(t)) else route
  }

  function Ended(route: Route, ends: bool, t: Instant): Route {
    if ends then route.(status := RouteCompleted, actualEnd := Some(t)) else route
  }

  function MovedStops(route: Route, k: nat, target: StopStatus, t: Instant): seq<Stop>
    requires k < |route.stops|
  {
    route.stops[k := MovedStop(route.stops[k], target, t)]
  }

  function MovedRoute(route: Route, k: nat, target: StopStatus, t: Instant): Route
    requires k < |route.stops|
  {
    var moved := Started(route, t).(stops := MovedStops(route, k, target, t));
    Ended(moved, target == Completed && AllCompleted(moved.stops), t)
  }

  function MovedAssignment(a: Assignment, starts: bool, ends: bool, t: Instant): Assignment {
    var started := if starts then a.(status := AssignmentActive, activatedAt := Some(Or(a.activatedAt, t))) else a;
    if ends then started.(status := AssignmentEnded, endedAt := Some(t)) else started
  }

  function MovedResource(s: ResourceStatus, starts: bool, ends: bool): ResourceStatus {
    if ends then Available else if starts then Active else s
  }

  /** The rows an action at this place writes exist, and the resources may be used. */
  predicate Ready(w: World, p: Place) {
    && p.routeId in w.routes && p.at < |w.routes[p.routeId].stops|
    && var route := w.routes[p.routeId];
       && route.stops[p.at].orderId in w.orders && route.assignmentId in w.assignments
       && route.vehicleId in w.vehicles && w.vehicles[route.vehicleId] != Unavailable
       && route.driverId in w.drivers && w.drivers[route.driverId] != Unavailable
  }

  /** The route is activated if need be and the stop gets its status and its time. */
  function StopStarted(w: World, p: Place, target: StopStatus, t: Instant): World
    requires Ready(w, p)
  {
    var route := w.routes[p.routeId];
    var starts := route.status == RoutePlanned;
    w.(routes := w.routes[p.routeId := Started(route, t).(stops := MovedStops(route, p.at, target, t))],
       vehicles := w.vehicles[route.vehicleId := MovedResource(w.vehicles[route.vehicleId], starts, false)],
       drivers := w.drivers[route.driverId := MovedResource(w.drivers[route.driverId], starts, false)],
       assignments := w.assignments[route.assignmentId := MovedAssignment(w.assignments[route.assignmentId], starts, false, t)])
  }

  /** The order of the stop advances and the risk flags of the route are recomputed. */
  function OrdersAdvanced(threshold: nat, w: World, p: Place, target: StopStatus, t: Instant): (after: World)
    requires Ready(w, p)
    ensures Ready(after, p)
  {
    var stops := w.routes[p.routeId].stops;
    var stop := stops[p.at];
    var advanced := w.orders[stop.orderId := Advanced(w.orders[stop.orderId], stop.kind, target)];
    RecalculatedKeys(threshold, stops, RouteDelay(stops, t), advanced, |stops|);
    w.(orders := Recalculated(threshold, stops, RouteDelay(stops, t), advanced, |stops|))
  }

  /** The route ends with its last stop. */
  function RouteFinished(w: World, p: Place, target: StopStatus, t: Instant): World
    requires Ready(w, p)
  {
    var route := w.routes[p.routeId];
    var ends := target == Completed && AllCompleted(route.stops);
    w.(routes := w.routes[p.routeId := Ended(route, ends, t)],
       vehicles := w.vehicles[route.vehicleId := MovedResource(w.vehicles[route.vehicleId], false, ends)],
       drivers := w.drivers[route.driverId := MovedResource(w.drivers[route.driverId], false, ends)],
       assignments := w.assignments[route.assignmentId := MovedAssignment(w.assignments[route.assignmentId], false, ends, t)])
  }

  function Effect(threshold: nat, w: World, p: Place, target: StopStatus, t: Instant): World
    requires Ready(w, p)
  {
    RouteFinished(OrdersAdvanced(threshold, StopStarted(w, p, target, t), p, target, t), p, target, t)
  }

  function Step(threshold: nat, w: World, stopId: Id, a: Action, t: Instant): World {
    if Takes(w, stopId, a, t) then Effect(threshold, w, w.index[stopId], Target(a), t) else w
  }

  // ----- the checks on one route -----

  /** `_validate_sequence`: no earlier stop is left unfinished. */
  method ValidateSequence(stops: seq<Stop>, k: nat) returns (ok: bool)
    requires k < |stops|
    ensures ok <==> SequenceOk(stops, k)
  {
    ok := true;
    for i := 0 to |stops|
      invariant ok <==> forall j :: 0 <= j < i && stops[j].sequenceNo < stops[k].sequenceNo ==> stops[j].status == Completed
    {
      if stops[i].sequenceNo < stops[k].sequenceNo && stops[i].status != Completed { ok := false; }
    }
  }

  /** The search through the reversed stops. */
  method FindPrevious(stops: seq<Stop>, sequenceNo: int) returns (previous: Option<Stop>)
    ensures previous == Previous(stops, sequenceNo)
    ensures previous == None <==> forall i :: 0 <= i < |stops| ==> sequenceNo <= stops[i].sequenceNo
  {
    var n := |stops|;
    assert stops[..n] == stops;
    while 0 < n && sequenceNo <= stops[n - 1].sequenceNo
      invariant n <= |stops| && Previous(stops, sequenceNo) == Previous(stops[..n], sequenceNo)
      invariant forall i :: n <= i < |stops| ==> sequenceNo <= stops[i].sequenceNo
    {
      assert stops[..n][..n - 1] == stops[..n - 1];
      n := n - 1;
    }
    previous := if n == 0 then None else Some(stops[n - 1]);
  }

  /** `_validate_event_time`. */
  method ValidateEventTime(stops: seq<Stop>, k: nat, t: Instant, target: StopStatus) returns (ok: bool)
    requires k < |stops|
    ensures ok <==> EventTimeOk(stops, k, t, target)
  {
    var previous := FindPrevious(stops, stops[k].sequenceNo);
    if previous.Some? && previous.value.actualDeparture.Some? && t < previous.value.actualDeparture.value {
      return false;
    }
    if target == Completed && stops[k].actualArrival.Some? && t < stops[k].actualArrival.value {
      return false;
    }
    ok := true;
  }

  /** What is checked before the route is activated. */
  method Validate(route: Route, k: nat, a: Action, t: Instant) returns (outcome: Outcome)
    requires k < |route.stops|
    ensures outcome ==
              if route.stops[k].status != Expected(a) || !SequenceOk(route.stops, k) then InvalidStopTransition
              else if !EventTimeOk(route.stops, k, t, Target(a)) then InvalidEventTime
              else Done
  {
    if route.stops[k].status != Expected(a) {
      return InvalidStopTransition;
    }
    var inOrder := ValidateSequence(route.stops, k);
    if !inOrder {
      return InvalidStopTransition;
    }
    var inTime := ValidateEventTime(route.stops, k, t, Target(a));
    outcome := if inTime then Done else InvalidEventTime;
  }

  // ----- the service -----

  class StopExecutionService {
    const threshold: nat
    var plans: map<Id, PlanStatus>
    var index: map<Id, Place>
    var routes: map<Id, Route>
    var orders: map<Id, Order>
    var vehicles: map<Id, ResourceStatus>
    var drivers: map<Id, ResourceStatus>
    var assignments: map<Id, Assignment>

    constructor (threshold: nat, w: World)
      ensures this.threshold == threshold && Tables() == w
    {
      this.threshold := threshold;
      plans, index, routes, orders := w.plans, w.index, w.routes, w.orders;
      vehicles, drivers, assignments := w.vehicles, w.drivers, w.assignments;
    }

    function Tables(): World
      reads this
    {
      World(plans, index, routes, orders, vehicles, drivers, assignments)
    }

    /** `_transition`: the checks, one after the other, and then the writes. */
    method Transition(stopId: Id, a: Action, t: Instant) returns (outcome: Outcome)
      modifies this
      ensures outcome == Verdict(old(Tables()), stopId, a, t)
      ensures Tables() == Step(threshold, old(Tables()), stopId, a, t)
    {
      if stopId !in index {
        return StopNotFound;
      }
      var place := index[stopId];
      if place.routeId !in routes || |routes[place.routeId].stops| <= place.at {
        return RouteNotFound;
      }
      var route := routes[place.routeId];
      if route.planId !in plans || plans[route.planId] != PlanCurrent {
        return BasePlanNotCurrent;
      }
      var equipped := FindResources(route, place.at);
      if !equipped {
        return ResourceMissing;
      }
      if route.stops[place.at].status == Target(a) {
        return Done;
      }
      outcome := Validate(route, place.at, a, t);
      if outcome == Done {
        outcome := MayActivate(route);
      }
      if outcome == Done {
        Move(place, Target(a), t);
      }
    }

    /** The rows the action needs. */
    method FindResources(route: Route, k: nat) returns (found: bool)
      requires k < |route.stops|
      ensures found <==>
                && route.stops[k].orderId in orders && route.vehicleId in vehicles && route.driverId in drivers
                && route.assignmentId in assignments && forall i :: 0 <= i < |route.stops| ==> route.stops[i].orderId in orders
    {
      found := route.vehicleId in vehicles && route.driverId in drivers && route.assignmentId in assignments;
      for i := 0 to |route.stops|
        invariant found <==>
                    && route.vehicleId in vehicles && route.driverId in drivers && route.assignmentId in assignments
                    && forall j :: 0 <= j < i ==> route.stops[j].orderId in orders
      {
        if route.stops[i].orderId !in orders { found := false; }
      }
    }

    /** The checks that `_activate_route` starts with. */
    method MayActivate(route: Route) returns (outcome: Outcome)
      requires route.vehicleId in vehicles && route.driverId in drivers && route.assignmentId in assignments
      ensures outcome ==
                if route.status == RouteCancelled || route.status == RouteCompleted then InvalidStopTransition
                else if vehicles[route.vehicleId] == Unavailable then VehicleNotAvailable
                else if drivers[route.driverId] == Unavailable then DriverNotAvailable
                else if assignments[route.assignmentId].status in {AssignmentEnded, AssignmentCancelled} then InvalidAssignment
                else Done
    {
      if route.status == RouteCancelled {
        return InvalidStopTransition;
      }
      if route.status == RouteCompleted {
        return InvalidStopTransition;
      }
      if vehicles[route.vehicleId] == Unavailable {
        return VehicleNotAvailable;
      }
      if drivers[route.driverId] == Unavailable {
        return DriverNotAvailable;
      }
      var status := assignments[route.assignmentId].status;
      outcome := if status == AssignmentEnded || status == AssignmentCancelled then InvalidAssignment else Done;
    }

    method Move(place: Place, target: StopStatus, t: Instant)
      requires Ready(Tables(), place)
      modifies this
      ensures Tables() == Effect(threshold, old(Tables()), place, target, t)
    {
      StartStop(place, target, t);
      AdvanceOrders(place, target, t);
      FinishRoute(place, target, t);
    }

    method StartStop(place: Place, target: StopStatus, t: Instant)
      requires Ready(Tables(), place)
      modifies this
      ensures Tables() == StopStarted(old(Tables()), place, target, t)
      ensures Ready(Tables(), place)
    {
      ActivateRoute(place.routeId, t);
      MoveStop(place, target, t);
    }

    method AdvanceOrders(place: Place, target: StopStatus, t: Instant)
      requires Ready(Tables(), place)
      modifies this
      ensures Tables() == OrdersAdvanced(threshold, old(Tables()), place, target, t)
    {
      AdvanceOrder(routes[place.routeId].stops[place.at], target);
      RecalculateRoute(place.routeId, t);
    }

    /** The end of `_transition`: with its last stop the route ends and its resources are
        released. */
    method FinishRoute(place: Place, target: StopStatus, t: Instant)
      requires Ready(Tables(), place)
      modifies this
      ensures Tables() == RouteFinished(old(Tables()), place, target, t)
    {
      var route := routes[place.routeId];
      if target == Completed && AllCompleted(route.stops) {
        routes := routes[place.routeId := route.(status := RouteCompleted, actualEnd := Some(t))];
        if vehicles[route.vehicleId] != Unavailable {
          vehicles := vehicles[route.vehicleId := Available];
        }
        if drivers[route.driverId] != Unavailable {
          drivers := drivers[route.driverId := Available];
        }
        assignments := assignments[route.assignmentId :=
          assignments[route.assignmentId].(status := AssignmentEnded, endedAt := Some(t))];
      }
    }

    /** `_activate_route`: a planned route starts with its vehicle, driver and assignment. */
    method ActivateRoute(routeId: Id, t: Instant)
      requires routeId in routes && routes[routeId].vehicleId in vehicles
      requires routes[routeId].driverId in drivers && routes[routeId].assignmentId in assignments
      modifies this`routes, this`vehicles, this`drivers, this`assignments
      ensures var route := old(routes)[routeId]; var starts := route.status == RoutePlanned;
              && routes == old(routes)[routeId := Started(route, t)]
              && vehicles == old(vehicles)[route.vehicleId := MovedResource(old(vehicles)[route.vehicleId], starts, false)]
              && drivers == old(drivers)[route.driverId := MovedResource(old(drivers)[route.driverId], starts, false)]
              && assignments == old(assignments)[route.assignmentId :=
                   MovedAssignment(old(assignments)[route.assignmentId], starts, false, t)]
    {
      var route := routes[routeId];
      if route.status == RoutePlanned {
        routes := routes[routeId := route.(status := RouteActive, actualStart := Some(t))];
        vehicles := vehicles[route.vehicleId := Active];
        drivers := drivers[route.driverId := Active];
        var assignment := assignments[route.assignmentId];
        assignments := assignments[route.assignmentId :=
          assignment.(status := AssignmentActive, activatedAt := Some(Or(assignment.activatedAt, t)))];
      }
    }

    method MoveStop(place: Place, target: StopStatus, t: Instant)
      requires place.routeId in routes && place.at < |routes[place.routeId].stops|
      modifies this`routes
      ensures var route := old(routes)[place.routeId];
              routes == old(routes)[place.routeId :=
                route.(stops := route.stops[place.at := MovedStop(route.stops[place.at], target, t)])]
    {
      var route := routes[place.routeId];
      var stop := route.stops[place.at].(status := target);
      if target == Arrived {
        stop := stop.(actualArrival := Some(t));
      } else if target == Completed {
        stop := stop.(actualDeparture := Some(t));
      }
      routes := routes[place.routeId := route.(stops := route.stops[place.at := stop])];
    }

    /** `_advance_order`: the status of an order is only ever raised. */
    method AdvanceOrder(stop: Stop, target: StopStatus)
      requires stop.orderId in orders
      modifies this`orders
      ensures orders == old(orders)[stop.orderId := Advanced(old(orders)[stop.orderId], stop.kind, target)]
    {
      var desired := Desired(stop.kind, target);
      if desired == None {
        return;
      }
      var order := orders[stop.orderId];
      if Rank(desired.value) > Rank(order.status) {
        order := order.(status := desired.value);
      }
      if desired.value == OrderCompleted {
        order := order.(risk := Normal);
      }
      orders := orders[stop.orderId := order];
    }

    /** `recalculate_route`. */
    method RecalculateRoute(routeId: Id, t: Instant)
      requires routeId in routes
      modifies this`orders
      ensures var stops := routes[routeId].stops;
              orders == Recalculated(threshold, stops, RouteDelay(stops, t), old(orders), |stops|)
    {
      var stops := routes[routeId].stops;
      var delay := RouteDelay(stops, t);
      for n := 0 to |stops|
        invariant orders == Recalculated(threshold, stops, delay, old(orders), n)
        invariant routes == old(routes)
      {
        var stop := stops[n];
        if stop.kind == Delivery && stop.orderId in orders {
          var order := orders[stop.orderId];
          var risk := if stop.status == Completed then Normal
                      else StatusForEta(threshold, stop.plannedArrival + delay, Or(stop.windowEnd, order.windowEnd));
          orders := orders[stop.orderId := order.(risk := risk)];
        }
      }
    }
  }
}
