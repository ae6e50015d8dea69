/** PlanFinalizer.finalize and the solver input it answers to: a validated routing becomes the
    rows of a plan. */
module Finalizer {
  import opened Ordering
  import opened Domain
  import opened Optimization
  import opened Checker
  import opened Feasibility

  datatype PlanningOrder = PlanningOrder(
    orderId: Id,
    pickup: Id,
    delivery: Id,
    readyAt: Instant,
    pickupService: int,
    windowStart: Instant,
    windowEnd: Instant,
    deliveryService: int,
    demand: int)

  /** A vehicle with its driver. */
  datatype Pair = Pair(
    assignmentId: Id,
    vehicleId: Id,
    driverId: Id,
    capacity: int,
    start: Id,
    from: Instant,
    until: Option<Instant>)

  datatype Facts = Facts(now: Instant, orders: seq<PlanningOrder>, pairs: seq<Pair>)

  /** A row of delivery_plans. */
  datatype PlanRow = PlanRow(
    id: Id,
    group: Id,
    version: nat,
    parent: Option<Id>,
    status: PlanStatus,
    activatedAt: Option<Instant>,
    distance: int,
    duration: int,
    vehicleCount: nat,
    assignedCount: int,
    unassignedCount: nat)

  /** A row of delivery_plan_orders. */
  datatype Membership = OnRouteRow(orderId: Id, routeId: Id) | UnassignedRow(orderId: Id, reason: nat)

  // ----- the solver input -----

  function PlanningEnd(facts: Facts, n: nat): Instant
    requires n <= |facts.orders|
  {
    if n == 0 then facts.now
    else
      var end := facts.orders[n - 1].windowEnd + facts.orders[n - 1].deliveryService;
      if n == 1 then end else Max(PlanningEnd(facts, n - 1), end)
  }

  function AsSolverOrder(now: Instant, o: PlanningOrder): SolverOrder {
    SolverOrder(o.orderId, Some(o.pickup), None, o.delivery, o.readyAt - now, o.windowStart - now, o.windowEnd - now,
                o.pickupService, 0, o.deliveryService, o.demand, None)
  }

  function AsSolverVehicle(now: Instant, end: Instant, p: Pair): SolverVehicle {
    SolverVehicle(p.vehicleId, p.capacity, p.start, p.from - now, Or(p.until, end) - now, 0)
  }

  function AsSolverOrders(now: Instant, orders: seq<PlanningOrder>): seq<SolverOrder> {
    if orders == [] then []
    else AsSolverOrders(now, orders[..|orders| - 1]) + [AsSolverOrder(now, orders[|orders| - 1])]
  }

  function AsSolverVehicles(now: Instant, end: Instant, pairs: seq<Pair>): seq<SolverVehicle> {
    if pairs == [] then []
    else AsSolverVehicles(now, end, pairs[..|pairs| - 1]) + [AsSolverVehicle(now, end, pairs[|pairs| - 1])]
  }

  /** `build_solver_input`. */
  function BuildSolverInput(facts: Facts, locations: seq<Id>, distances: Matrix, durations: Matrix): SolverInput {
    SolverInput(AsSolverOrders(facts.now, facts.orders),
                AsSolverVehicles(facts.now, PlanningEnd(facts, |facts.orders|), facts.pairs),
                [], locations, distances, durations)
  }

  // ----- dictionaries -----

  function PlanningOrdersById(orders: seq<PlanningOrder>): map<Id, PlanningOrder> {
    if orders == [] then map[]
    else PlanningOrdersById(orders[..|orders| - 1])[orders[|orders| - 1].orderId := orders[|orders| - 1]]
  }

  function PairsByVehicle(pairs: seq<Pair>): map<Id, Pair> {
    if pairs == [] then map[]
    else PairsByVehicle(pairs[..|pairs| - 1])[pairs[|pairs| - 1].vehicleId := pairs[|pairs| - 1]]
  }

  /** The dictionaries of the finalizer and of the checker have the same keys and agree. */
  lemma {:induction false} OrdersAgree(now: Instant, orders: seq<PlanningOrder>)
    ensures var mine, theirs := PlanningOrdersById(orders), OrdersById(AsSolverOrders(now, orders));
            && mine.Keys == theirs.Keys
            && forall o :: o in mine ==> theirs[o] == AsSolverOrder(now, mine[o]) && mine[o].orderId == o
    ensures |AsSolverOrders(now, orders)| == |orders|
    ensures forall i :: 0 <= i < |orders| ==> AsSolverOrders(now, orders)[i] == AsSolverOrder(now, orders[i])
  {
    if orders != [] {
      OrdersAgree(now, orders[..|orders| - 1]);
      var all := AsSolverOrders(now, orders);
      assert all[..|all| - 1] == AsSolverOrders(now, orders[..|orders| - 1]);
    }
  }

  lemma {:induction false} VehiclesAgree(now: Instant, end: Instant, pairs: seq<Pair>)
    ensures var mine, theirs := PairsByVehicle(pairs), VehiclesById(AsSolverVehicles(now, end, pairs));
            && mine.Keys == theirs.Keys
            && forall v :: v in mine ==> theirs[v] == AsSolverVehicle(now, end, mine[v]) && mine[v].vehicleId == v
  {
    if pairs != [] {
      VehiclesAgree(now, end, pairs[..|pairs| - 1]);
      var all := AsSolverVehicles(now, end, pairs);
      assert all[..|all| - 1] == AsSolverVehicles(now, end, pairs[..|pairs| - 1]);
    }
  }

  // ----- the rows -----

  /** `origin_stop_ids` after the first n stops, when stop k gets the id first + k. */
  function Origins(first: Id, stops: seq<SolverStop>, n: nat): map<Id, Id>
    requires n <= |stops|
  {
    if n == 0 then map[]
    else
      var before := Origins(first, stops, n - 1);
      if stops[n - 1].kind == Delivery then before else before[stops[n - 1].orderId := first + n - 1]
  }

  /** The lookups for stop k succeed. */
  predicate StopBuildable(orders: map<Id, PlanningOrder>, stops: seq<SolverStop>, k: nat)
    requires k < |stops|
  {
    stops[k].orderId in orders && (stops[k].kind == Delivery ==> stops[k].orderId in Origins(0, stops, k))
  }

  lemma {:induction false} OriginKeys(first: Id, stops: seq<SolverStop>, n: nat)
    requires n <= |stops|
    ensures Origins(first, stops, n).Keys == Origins(0, stops, n).Keys
  {
    if 0 < n { OriginKeys(first, stops, n - 1); }
  }

  function NewStop(order: PlanningOrder, now: Instant, routeId: Id, stopId: Id, s: SolverStop, precedence: Option<Id>): Stop {
    Stop(stopId, routeId, s.orderId, s.locationId, s.kind, s.sequenceNo, precedence, None,
         now + s.arrival, now + s.departure, None, None, s.service,
         Some(if s.kind == Delivery then order.windowStart else order.readyAt),
         if s.kind == Delivery then Some(order.windowEnd) else None,
         order.demand, Planned)
  }

  function PrecedenceOf(first: Id, stops: seq<SolverStop>, k: nat): Option<Id>
    requires k < |stops|
  {
    var origins := Origins(first, stops, k);
    if stops[k].kind == Delivery && stops[k].orderId in origins then Some(origins[stops[k].orderId]) else None
  }

  /** The rows of the first n stops. */
  function NewStops(orders: map<Id, PlanningOrder>, now: Instant, routeId: Id, stops: seq<SolverStop>, n: nat): (rows: seq<Stop>)
    requires n <= |stops| && forall k :: 0 <= k < n ==> stops[k].orderId in orders
    ensures |rows| == n
  {
    if n == 0 then []
    else
      NewStops(orders, now, routeId, stops, n - 1)
      + [NewStop(orders[stops[n - 1].orderId], now, routeId, routeId + n, stops[n - 1], PrecedenceOf(routeId + 1, stops, n - 1))]
  }

  lemma {:induction false} NewStopAt(orders: map<Id, PlanningOrder>, now: Instant, routeId: Id, stops: seq<SolverStop>, n: nat, k: nat)
    requires k < n <= |stops| && forall i :: 0 <= i < n ==> stops[i].orderId in orders
    ensures NewStops(orders, now, routeId, stops, n)[k] ==
              NewStop(orders[stops[k].orderId], now, routeId, routeId + 1 + k, stops[k], PrecedenceOf(routeId + 1, stops, k))
  {
    if k < n - 1 { NewStopAt(orders, now, routeId, stops, n - 1, k); }
  }

  /** Road distances by vehicle, when a road provider is configured. */
  type Roads = Option<map<Id, nat>>

  predicate RoadsCover(roads: Roads, routes: seq<SolverRoute>) {
    roads.Some? ==> roads.value.Keys == set i | 0 <= i < |routes| :: routes[i].vehicleId
  }

  function RoadDistance(roads: Roads, route: SolverRoute): int {
    if roads.Some? && route.vehicleId in roads.value then roads.value[route.vehicleId] else route.distance
  }

  /** The id of the row of route i: every earlier route takes one id and one per stop. */
  function RouteIdAt(next: Id, routes: seq<SolverRoute>, i: nat): Id
    requires i <= |routes|
  {
    if i == 0 then next else RouteIdAt(next, routes, i - 1) + 1 + |routes[i - 1].stops|
  }

  /** What the loops over routes and stops look things up in. */
  datatype Context = Context(orders: map<Id, PlanningOrder>, pairs: map<Id, Pair>, now: Instant, roads: Roads, planId: Id)

  function ContextOf(facts: Facts, roads: Roads, planId: Id): Context {
    Context(PlanningOrdersById(facts.orders), PairsByVehicle(facts.pairs), facts.now, roads, planId)
  }

  /** No lookup fails and the route has a last stop. */
  predicate Buildable(c: Context, route: SolverRoute) {
    && route.vehicleId in c.pairs && route.stops != []
    && forall k :: 0 <= k < |route.stops| ==> StopBuildable(c.orders, route.stops, k)
  }

  predicate RoutesBuildable(c: Context, routes: seq<SolverRoute>, n: nat)
    requires n <= |routes|
  {
    forall i :: 0 <= i < n ==> Buildable(c, routes[i])
  }

  function NewRoute(c: Context, routeId: Id, routeNo: int, route: SolverRoute): Route
    requires Buildable(c, route)
  {
    var pair, last := c.pairs[route.vehicleId], route.stops[|route.stops| - 1];
    assert forall k {:trigger route.stops[k]} :: 0 <= k < |route.stops| ==> StopBuildable(c.orders, route.stops, k);
    Route(routeId, c.planId, routeNo, pair.vehicleId, pair.driverId, pair.assignmentId, pair.start, last.locationId,
          RoutePlanned, c.now + Max(0, pair.from - c.now), c.now + last.departure, None, None,
          RoadDistance(c.roads, route), route.duration, pair.capacity,
          NewStops(c.orders, c.now, routeId, route.stops, |route.stops|))
  }

  /** The rows of the first n routes. */
  function NewRoutes(c: Context, next: Id, routes: seq<SolverRoute>, n: nat): (rows: seq<Route>)
    requires n <= |routes| && RoutesBuildable(c, routes, n)
    ensures |rows| == n
  {
    if n == 0 then []
    else NewRoutes(c, next, routes, n - 1) + [NewRoute(c, RouteIdAt(next, routes, n - 1), n, routes[n - 1])]
  }

  lemma {:induction false} NewRoutesOneMore(c: Context, next: Id, routes: seq<SolverRoute>, n: nat)
    requires n < |routes| && RoutesBuildable(c, routes, n + 1)
    ensures NewRoutes(c, next, routes, n + 1) == NewRoutes(c, next, routes, n) + [NewRoute(c, RouteIdAt(next, routes, n), n + 1, routes[n])]
    ensures RouteByOrder(next, routes, n + 1)
            == WithStops(RouteByOrder(next, routes, n), RouteIdAt(next, routes, n), routes[n].stops, |routes[n].stops|)
  {
  }

  lemma {:induction false} NewRouteAt(c: Context, next: Id, routes: seq<SolverRoute>, n: nat, i: nat)
    requires i < n <= |routes| && RoutesBuildable(c, routes, n)
    ensures NewRoutes(c, next, routes, n)[i] == NewRoute(c, RouteIdAt(next, routes, i), i + 1, routes[i])
  {
    if i < n - 1 { NewRouteAt(c, next, routes, n - 1, i); }
  }

  /** `route_by_order_id`: the row of the last route with a stop of the order. */
  function RouteByOrder(next: Id, routes: seq<SolverRoute>, n: nat): map<Id, Id>
    requires n <= |routes|
  {
    if n == 0 then map[]
    else WithStops(RouteByOrder(next, routes, n - 1), RouteIdAt(next, routes, n - 1), routes[n - 1].stops, |routes[n - 1].stops|)
  }

  function WithStops(routeByOrder: map<Id, Id>, routeId: Id, stops: seq<SolverStop>, k: nat): map<Id, Id>
    requires k <= |stops|
  {
    if k == 0 then routeByOrder else WithStops(routeByOrder, routeId, stops, k - 1)[stops[k - 1].orderId := routeId]
  }

  /** `{item.order_id: item for item in result.unassigned_orders}`. */
  function ReasonByOrder(unassigned: seq<SolverUnassigned>): map<Id, nat> {
    if unassigned == [] then map[]
    else ReasonByOrder(unassigned[..|unassigned| - 1])[unassigned[|unassigned| - 1].orderId := unassigned[|unassigned| - 1].reason]
  }

  predicate Settled(routeByOrder: map<Id, Id>, reasons: map<Id, nat>, o: Id) {
    o in routeByOrder || o in reasons
  }

  predicate AllSettled(routeByOrder: map<Id, Id>, reasons: map<Id, nat>, orders: seq<PlanningOrder>, n: nat)
    requires n <= |orders|
  {
    forall i :: 0 <= i < n ==> Settled(routeByOrder, reasons, orders[i].orderId)
  }

  function MembershipOf(routeByOrder: map<Id, Id>, reasons: map<Id, nat>, o: Id): Membership
    requires Settled(routeByOrder, reasons, o)
  {
    if o in routeByOrder then OnRouteRow(o, routeByOrder[o]) else UnassignedRow(o, reasons[o])
  }

  function Memberships(routeByOrder: map<Id, Id>, reasons: map<Id, nat>, orders: seq<PlanningOrder>, n: nat): (rows: seq<Membership>)
    requires n <= |orders| && AllSettled(routeByOrder, reasons, orders, n)
    ensures |rows| == n
  {
    if n == 0 then []
    else Memberships(routeByOrder, reasons, orders, n - 1) + [MembershipOf(routeByOrder, reasons, orders[n - 1].orderId)]
  }

  lemma {:induction false} MembershipAt(routeByOrder: map<Id, Id>, reasons: map<Id, nat>, orders: seq<PlanningOrder>, n: nat, i: nat)
    requires i < n <= |orders| && AllSettled(routeByOrder, reasons, orders, n)
    ensures Memberships(routeByOrder, reasons, orders, n)[i] == MembershipOf(routeByOrder, reasons, orders[i].orderId)
  {
    if i < n - 1 { MembershipAt(routeByOrder, reasons, orders, n - 1, i); }
  }

  ghost function NewPlan(facts: Facts, result: SolverResult, roads: Roads, latest: Option<PlanRow>,
                   activatedAt: Option<Instant>, planId: Id): PlanRow {
    PlanRow(planId,
            if latest.Some? then latest.value.group else planId + 1,
            if latest.Some? then latest.value.version + 1 else 1,
            if latest.Some? then Some(latest.value.id) else None,
            if activatedAt.Some? then PlanCurrent else PlanDraft,
            activatedAt,
            if roads.Some? then Total(roads.value, roads.value.Keys) else result.totalDistance,
            result.totalDuration,
            |result.routes|,
            |facts.orders| - |result.unassigned|,
            |result.unassigned|)
  }

  datatype Outcome = Done | NotFeasible | RoadsIncomplete | LookupFailed

  /** Every lookup of the finalizer succeeds. */
  predicate AllBuildable(facts: Facts, result: SolverResult, c: Context, first: Id) {
    && RoutesBuildable(c, result.routes, |result.routes|)
    && AllSettled(RouteByOrder(first, result.routes, |result.routes|), ReasonByOrder(result.unassigned), facts.orders, |facts.orders|)
  }

  function NewMemberships(facts: Facts, result: SolverResult, c: Context, first: Id): seq<Membership>
    requires AllBuildable(facts, result, c, first)
  {
    Memberships(RouteByOrder(first, result.routes, |result.routes|), ReasonByOrder(result.unassigned), facts.orders, |facts.orders|)
  }

  /** The plan, its routes and its memberships; a failing lookup rolls everything back. */
  class PlanFinalizer {
    var nextId: Id
    var plans: seq<PlanRow>
    var routes: seq<Route>
    var memberships: seq<Membership>

    constructor (nextId: Id)
      ensures this.nextId == nextId && plans == [] && routes == [] && memberships == []
    {
      this.nextId := nextId;
      plans, routes, memberships := [], [], [];
    }

    /** `finalize`.  Two ids are taken for the plan and its group, then one per route and stop. */
    method Finalize(facts: Facts, result: SolverResult, roads: Roads, latest: Option<PlanRow>, activatedAt: Option<Instant>)
      returns (outcome: Outcome)
      modifies this
      ensures outcome ==
                if result.status != Feasible then NotFeasible
                else if !RoadsCover(roads, result.routes) then RoadsIncomplete
                else if !AllBuildable(facts, result, ContextOf(facts, roads, old(nextId)), old(nextId) + 2) then LookupFailed
                else Done
      ensures outcome != Done ==>
                plans == old(plans) && routes == old(routes) && memberships == old(memberships) && nextId == old(nextId)
      ensures outcome == Done ==>
                var c, first := ContextOf(facts, roads, old(nextId)), old(nextId) + 2;
                && plans == old(plans) + [NewPlan(facts, result, roads, latest, activatedAt, old(nextId))]
                && routes == old(routes) + NewRoutes(c, first, result.routes, |result.routes|)
                && memberships == old(memberships) + NewMemberships(facts, result, c, first)
                && nextId == RouteIdAt(first, result.routes, |result.routes|)
    {
      if result.status != Feasible {
        return NotFeasible;
      }
      if !RoadsCover(roads, result.routes) {
        return RoadsIncomplete;
      }
      var plan := BuildPlan(facts, result, roads, latest, activatedAt, nextId);
      var ok, rows, members, next := BuildRows(facts, result, ContextOf(facts, roads, nextId), nextId + 2);
      if !ok {
        return LookupFailed;
      }
      plans, routes, memberships, nextId := plans + [plan], routes + rows, memberships + members, next;
      outcome := Done;
    }
  }

  method BuildPlan(facts: Facts, result: SolverResult, roads: Roads, latest: Option<PlanRow>,
                   activatedAt: Option<Instant>, planId: Id) returns (plan: PlanRow)
    ensures plan == NewPlan(facts, result, roads, latest, activatedAt, planId)
  {
    var distance := result.totalDistance;
    if roads.Some? {
      distance := SumOfRoads(roads.value);
    }
    plan := PlanRow(planId,
                    if latest.Some? then latest.value.group else planId + 1,
                    if latest.Some? then latest.value.version + 1 else 1,
                    if latest.Some? then Some(latest.value.id) else None,
                    if activatedAt.Some? then PlanCurrent else PlanDraft,
                    activatedAt, distance, result.totalDuration, |result.routes|,
                    |facts.orders| - |result.unassigned|, |result.unassigned|);
  }

  method SumOfRoads(roads: map<Id, nat>) returns (sum: int)
    ensures sum == Total(roads, roads.Keys)
  {
    sum := 0;
    var todo := roads.Keys;
    while todo != {}
      invariant todo <= roads.Keys && sum + Total(roads, todo) == Total(roads, roads.Keys)
    {
      var v :| v in todo;
      TotalRemove(roads, todo, v);
      sum, todo := sum + roads[v], todo - {v};
    }
  }

  method BuildRows(facts: Facts, result: SolverResult, c: Context, first: Id)
    returns (ok: bool, rows: seq<Route>, members: seq<Membership>, next: Id)
    ensures ok <==> AllBuildable(facts, result, c, first)
    ensures ok ==> rows == NewRoutes(c, first, result.routes, |result.routes|)
    ensures ok ==> members == NewMemberships(facts, result, c, first)
    ensures ok ==> next == RouteIdAt(first, result.routes, |result.routes|)
  {
    var routeByOrder;
    ok, rows, routeByOrder, next := BuildRoutes(c, first, result.routes);
    members := [];
    if ok {
      ok, members := BuildMemberships(facts.orders, result.unassigned, routeByOrder);
    }
  }

  /** What the loop over the first n routes has built. */
  ghost predicate BuiltUpTo(c: Context, first: Id, routes: seq<SolverRoute>, n: nat, rows: seq<Route>, routeByOrder: map<Id, Id>, next: Id) {
    && n <= |routes| && RoutesBuildable(c, routes, n) && rows == NewRoutes(c, first, routes, n)
    && routeByOrder == RouteByOrder(first, routes, n) && next == RouteIdAt(first, routes, n)
  }

  /** One iteration. */
  method AddRoute(c: Context, ghost first: Id, routes: seq<SolverRoute>, i: nat, rows: seq<Route>, routeByOrder: map<Id, Id>, next: Id)
    returns (ok: bool, nowRows: seq<Route>, nowByOrder: map<Id, Id>, nowNext: Id)
    requires i < |routes| && BuiltUpTo(c, first, routes, i, rows, routeByOrder, next)
    ensures ok <==> Buildable(c, routes[i])
    ensures ok ==> BuiltUpTo(c, first, routes, i + 1, nowRows, nowByOrder, nowNext)
  {
    var row;
    ok, row, nowByOrder := BuildRoute(c, next, i + 1, routes[i], routeByOrder);
    if ok { NewRoutesOneMore(c, first, routes, i); }
    nowRows, nowNext := rows + [row], next + 1 + |routes[i].stops|;
  }

  /** The loop over the solver routes. */
  method BuildRoutes(c: Context, first: Id, routes: seq<SolverRoute>)
    returns (ok: bool, rows: seq<Route>, routeByOrder: map<Id, Id>, next: Id)
    ensures ok <==> RoutesBuildable(c, routes, |routes|)
    ensures ok ==> rows == NewRoutes(c, first, routes, |routes|)
    ensures ok ==> routeByOrder == RouteByOrder(first, routes, |routes|) && next == RouteIdAt(first, routes, |routes|)
  {
    ok, rows, routeByOrder, next := true, [], map[], first;
    for i := 0 to |routes|
      invariant ok && BuiltUpTo(c, first, routes, i, rows, routeByOrder, next)
    {
      ok, rows, routeByOrder, next := AddRoute(c, first, routes, i, rows, routeByOrder, next);
      if !ok {
        return;
      }
    }
  }

  method BuildRoute(c: Context, routeId: Id, routeNo: int, route: SolverRoute, routeByOrder: map<Id, Id>)
    returns (ok: bool, row: Route, updated: map<Id, Id>)
    ensures ok <==> Buildable(c, route)
    ensures ok ==> row == NewRoute(c, routeId, routeNo, route)
    ensures ok ==> updated == WithStops(routeByOrder, routeId, route.stops, |route.stops|)
  {
    var stops;
    ok, stops, updated := BuildStops(c.orders, c.now, routeId, route.stops, routeByOrder);
    ok := ok && route.vehicleId in c.pairs && route.stops != [];
    if ok {
      var pair, last := c.pairs[route.vehicleId], route.stops[|route.stops| - 1];
      row := Route(routeId, c.planId, routeNo, pair.vehicleId, pair.driverId, pair.assignmentId, pair.start, last.locationId,
                   RoutePlanned, c.now + Max(0, pair.from - c.now), c.now + last.departure, None, None,
                   RoadDistance(c.roads, route), route.duration, pair.capacity, stops);
    } else {
      row := *;
    }
  }

  /** The loop over the stops of a route. */
  method BuildStops(orders: map<Id, PlanningOrder>, now: Instant, routeId: Id, stops: seq<SolverStop>, routeByOrder: map<Id, Id>)
    returns (ok: bool, rows: seq<Stop>, updated: map<Id, Id>)
    ensures ok <==> forall k :: 0 <= k < |stops| ==> StopBuildable(orders, stops, k)
    ensures ok ==> forall k :: 0 <= k < |stops| ==> stops[k].orderId in orders
    ensures ok ==> rows == NewStops(orders, now, routeId, stops, |stops|)
    ensures ok ==> updated == WithStops(routeByOrder, routeId, stops, |stops|)
  {
    ok, rows, updated := true, [], routeByOrder;
    var originStopIds: map<Id, Id> := map[];
    for k := 0 to |stops|
      invariant forall j :: 0 <= j < k ==> StopBuildable(orders, stops, j)
      invariant forall j :: 0 <= j < k ==> stops[j].orderId in orders
      invariant originStopIds == Origins(routeId + 1, stops, k)
      invariant rows == NewStops(orders, now, routeId, stops, k)
      invariant updated == WithStops(routeByOrder, routeId, stops, k) && ok
    {
      var s := stops[k];
      OriginKeys(routeId + 1, stops, k);
      if s.orderId !in orders || (s.kind == Delivery && s.orderId !in originStopIds) {
        assert !StopBuildable(orders, stops, k);
        return false, rows, updated;
      }
      var stopId := routeId + 1 + k;
      var precedence := if s.kind == Delivery then Some(originStopIds[s.orderId]) else None;
      rows := rows + [NewStop(orders[s.orderId], now, routeId, stopId, s, precedence)];
      if s.kind != Delivery {
        originStopIds := originStopIds[s.orderId := stopId];
      }
      updated := updated[s.orderId := routeId];
    }
  }

  /** The loop over the orders of the plan. */
  method BuildMemberships(orders: seq<PlanningOrder>, unassigned: seq<SolverUnassigned>, routeByOrder: map<Id, Id>)
    returns (ok: bool, rows: seq<Membership>)
    ensures ok <==> AllSettled(routeByOrder, ReasonByOrder(unassigned), orders, |orders|)
    ensures ok ==> rows == Memberships(routeByOrder, ReasonByOrder(unassigned), orders, |orders|)
  {
    ok, rows := true, [];
    var reasons := ReasonByOrder(unassigned);
    for i := 0 to |orders|
      invariant AllSettled(routeByOrder, reasons, orders, i) && ok
      invariant rows == Memberships(routeByOrder, reasons, orders, i)
    {
      var o := orders[i].orderId;
      if o in routeByOrder {
        rows := rows + [OnRouteRow(o, routeByOrder[o])];
      } else if o in reasons {
        rows := rows + [UnassignedRow(o, reasons[o])];
      } else {
        return false, rows;
      }
    }
  }
}
