/** The rows the finalizer stores and the problem it has solved, told from the planning facts and the solver
    routes alone. */
module StoredRows {
  import opened Ordering
  import opened Domain
  import opened Optimization
  import opened Feasibility
  import opened Finalizer
  import opened FinalizedPlan

  // ----- the problem -----

  /** When planning ends: with the last window and its service, or right away without orders. */
  ghost predicate IsPlanningEnd(facts: Facts, end: Instant) {
    if facts.orders == [] then end == facts.now
    else
      && (forall i :: 0 <= i < |facts.orders| ==> facts.orders[i].windowEnd + facts.orders[i].deliveryService <= end)
      && exists i :: 0 <= i < |facts.orders| && facts.orders[i].windowEnd + facts.orders[i].deliveryService == end
  }

  /** An order as the solver sees it: a pickup and a delivery, in seconds from now. */
  ghost predicate OrderPosed(now: Instant, o: PlanningOrder, s: SolverOrder) {
    && s.orderId == o.orderId && s.pickup == Some(o.pickup) && s.handover == None && s.delivery == o.delivery
    && s.requiredVehicle == None && s.demand == o.demand
    && now + s.ready == o.readyAt && now + s.windowStart == o.windowStart && now + s.windowEnd == o.windowEnd
    && s.pickupService == o.pickupService && s.handoverService == 0 && s.deliveryService == o.deliveryService
  }

  ghost predicate VehiclePosed(now: Instant, end: Instant, p: Pair, v: SolverVehicle) {
    && v.vehicleId == p.vehicleId && v.capacity == p.capacity && v.start == p.start && v.initialLoad == 0
    && now + v.availableFrom == p.from
    && now + v.availableUntil == if p.until.Some? then p.until.value else end
  }

  ghost predicate OrdersPosed(now: Instant, orders: seq<PlanningOrder>, posed: seq<SolverOrder>) {
    |posed| == |orders| && forall i :: 0 <= i < |orders| ==> OrderPosed(now, orders[i], posed[i])
  }

  ghost predicate VehiclesPosed(now: Instant, end: Instant, pairs: seq<Pair>, posed: seq<SolverVehicle>) {
    |posed| == |pairs| && forall i :: 0 <= i < |pairs| ==> VehiclePosed(now, end, pairs[i], posed[i])
  }

  ghost predicate ProblemTells(facts: Facts, input: SolverInput) {
    && input.frozen == [] && OrdersPosed(facts.now, facts.orders, input.orders)
    && forall end :: IsPlanningEnd(facts, end) ==> VehiclesPosed(facts.now, end, facts.pairs, input.vehicles)
  }

  lemma {:induction false} PlanningEndIs(facts: Facts, n: nat)
    requires n <= |facts.orders|
    ensures n == 0 ==> PlanningEnd(facts, n) == facts.now
    ensures forall i :: 0 <= i < n ==> facts.orders[i].windowEnd + facts.orders[i].deliveryService <= PlanningEnd(facts, n)
    ensures 0 < n ==> exists i :: 0 <= i < n && facts.orders[i].windowEnd + facts.orders[i].deliveryService == PlanningEnd(facts, n)
  {
    if 0 < n {
      PlanningEndIs(facts, n - 1);
      assert facts.orders[n - 1].windowEnd + facts.orders[n - 1].deliveryService <= PlanningEnd(facts, n);
    }
  }

  lemma {:induction false} AsOrdersPosed(now: Instant, orders: seq<PlanningOrder>)
    ensures OrdersPosed(now, orders, AsSolverOrders(now, orders))
  {
    if orders != [] { AsOrdersPosed(now, orders[..|orders| - 1]); }
  }

  lemma {:induction false} AsVehiclesPosed(now: Instant, end: Instant, pairs: seq<Pair>)
    ensures VehiclesPosed(now, end, pairs, AsSolverVehicles(now, end, pairs))
  {
    if pairs != [] { AsVehiclesPosed(now, end, pairs[..|pairs| - 1]); }
  }

  lemma {:induction false} PlanningEndUnique(facts: Facts, end: Instant)
    requires IsPlanningEnd(facts, end)
    ensures forall other :: IsPlanningEnd(facts, other) ==> other == end
  {
  }

  /** The solver is asked about the orders and vehicles of the day, in their order. */
  lemma {:induction false} ProblemIsPosed(facts: Facts, locations: seq<Id>, distances: Matrix, durations: Matrix)
    ensures var input := BuildSolverInput(facts, locations, distances, durations);
            && ProblemTells(facts, input)
            && input.locations == locations && input.distances == distances && input.durations == durations
  {
    var end := PlanningEnd(facts, |facts.orders|);
    AsOrdersPosed(facts.now, facts.orders);
    AsVehiclesPosed(facts.now, end, facts.pairs);
    PlanningEndIs(facts, |facts.orders|);
    PlanningEndUnique(facts, end);
  }

  // ----- dictionaries -----

  ghost predicate OrderAt(orders: seq<PlanningOrder>, o: Id, i: int) {
    0 <= i < |orders| && orders[i].orderId == o && forall j :: i < j < |orders| ==> orders[j].orderId != o
  }

  ghost predicate PairAt(pairs: seq<Pair>, v: Id, i: int) {
    0 <= i < |pairs| && pairs[i].vehicleId == v && forall j :: i < j < |pairs| ==> pairs[j].vehicleId != v
  }

  ghost predicate ReasonAt(unassigned: seq<SolverUnassigned>, o: Id, i: int) {
    0 <= i < |unassigned| && unassigned[i].orderId == o && forall j :: i < j < |unassigned| ==> unassigned[j].orderId != o
  }

  lemma {:induction false} OrdersAre(orders: seq<PlanningOrder>, o: Id)
    ensures o in PlanningOrdersById(orders) ==> exists i :: OrderAt(orders, o, i)
    ensures forall i :: OrderAt(orders, o, i) ==> o in PlanningOrdersById(orders) && PlanningOrdersById(orders)[o] == orders[i]
  {
    if orders != [] {
      var front, last := orders[..|orders| - 1], orders[|orders| - 1];
      OrdersAre(front, o);
      if last.orderId == o {
        assert OrderAt(orders, o, |orders| - 1);
      } else {
        forall i ensures OrderAt(orders, o, i) <==> OrderAt(front, o, i) { }
      }
    }
  }

  lemma {:induction false} PairsAre(pairs: seq<Pair>, v: Id)
    ensures v in PairsByVehicle(pairs) ==> exists i :: PairAt(pairs, v, i)
    ensures forall i :: PairAt(pairs, v, i) ==> v in PairsByVehicle(pairs) && PairsByVehicle(pairs)[v] == pairs[i]
  {
    if pairs != [] {
      var front, last := pairs[..|pairs| - 1], pairs[|pairs| - 1];
      PairsAre(front, v);
      if last.vehicleId == v {
        assert PairAt(pairs, v, |pairs| - 1);
      } else {
        forall i ensures PairAt(pairs, v, i) <==> PairAt(front, v, i) { }
      }
    }
  }

  lemma {:induction false} ReasonsAre(unassigned: seq<SolverUnassigned>, o: Id)
    ensures o in ReasonByOrder(unassigned) ==> exists i :: ReasonAt(unassigned, o, i)
    ensures forall i :: ReasonAt(unassigned, o, i) ==> o in ReasonByOrder(unassigned) && ReasonByOrder(unassigned)[o] == unassigned[i].reason
  {
    if unassigned != [] {
      var front, last := unassigned[..|unassigned| - 1], unassigned[|unassigned| - 1];
      ReasonsAre(front, o);
      if last.orderId == o {
        assert ReasonAt(unassigned, o, |unassigned| - 1);
      } else {
        forall i ensures ReasonAt(unassigned, o, i) <==> ReasonAt(front, o, i) { }
      }
    }
  }

  // ----- the rows -----

  /** The last stop before stop i that takes goods of the order on. */
  ghost predicate LoadsBefore(stops: seq<SolverStop>, o: Id, i: int, q: int) {
    && 0 <= q < i <= |stops| && stops[q].orderId == o && stops[q].kind != Delivery
    && forall j :: q < j < i ==> stops[j].orderId != o || stops[j].kind == Delivery
  }

  /** Row stop k is stop k of the solver with the times of the day and the windows of its order. */
  ghost predicate StopStored(now: Instant, order: PlanningOrder, stops: seq<SolverStop>, row: Route, k: nat)
    requires k < |stops| == |row.stops|
  {
    var s, was := row.stops[k], stops[k];
    && s.routeId == row.id && s.orderId == was.orderId && s.locationId == was.locationId && s.kind == was.kind
    && s.sequenceNo == was.sequenceNo && s.incident == None && s.status == Planned
    && s.plannedArrival == now + was.arrival && s.plannedDeparture == now + was.departure
    && s.actualArrival == None && s.actualDeparture == None && s.service == was.service && s.demand == order.demand
    && if was.kind == Delivery then
         && s.windowStart == Some(order.windowStart) && s.windowEnd == Some(order.windowEnd)
         && exists q :: LoadsBefore(stops, was.orderId, k, q) && s.precedence == Some(row.stops[q].id)
       else s.windowStart == Some(order.readyAt) && s.windowEnd == None && s.precedence == None
  }

  /** The row of a solver route. */
  ghost predicate RouteStored(now: Instant, planId: Id, roads: Roads, pair: Pair, was: SolverRoute, row: Route, no: nat) {
    && row.planId == planId && row.routeNo == no && row.status == RoutePlanned && row.actualStart == None && row.actualEnd == None
    && row.vehicleId == pair.vehicleId && row.driverId == pair.driverId && row.assignmentId == pair.assignmentId
    && row.capacity == pair.capacity && row.startLocation == pair.start
    && row.plannedStart == (if pair.from < now then now else pair.from)
    && row.duration == was.duration
    && row.distance == (if roads.Some? && was.vehicleId in roads.value then roads.value[was.vehicleId] else was.distance)
    && was.stops != [] && |row.stops| == |was.stops|
    && row.endLocation == was.stops[|was.stops| - 1].locationId && row.plannedEnd == now + was.stops[|was.stops| - 1].departure
    && forall i, j :: 0 <= i < j < |row.stops| ==> row.stops[i].id != row.stops[j].id
  }

  ghost predicate RouteTells(facts: Facts, roads: Roads, planId: Id, was: SolverRoute, row: Route, no: nat) {
    && (exists i :: PairAt(facts.pairs, was.vehicleId, i) && RouteStored(facts.now, planId, roads, facts.pairs[i], was, row, no))
    && |row.stops| == |was.stops|
    && forall k, i :: 0 <= k < |was.stops| && OrderAt(facts.orders, was.stops[k].orderId, i) ==>
         StopStored(facts.now, facts.orders[i], was.stops, row, k)
  }

  lemma {:induction false} OriginIsLast(first: Id, stops: seq<SolverStop>, n: nat, o: Id) returns (q: nat)
    requires n <= |stops| && o in Origins(first, stops, n)
    ensures LoadsBefore(stops, o, n, q) && Origins(first, stops, n)[o] == first + q
  {
    if stops[n - 1].kind != Delivery && stops[n - 1].orderId == o {
      q := n - 1;
    } else {
      q := OriginIsLast(first, stops, n - 1, o);
    }
  }

  lemma {:induction false} StopIdAt(c: Context, route: SolverRoute, row: Route, no: nat, k: nat)
    requires Buildable(c, route) && row == NewRoute(c, row.id, no, route) && k < |route.stops|
    ensures |row.stops| == |route.stops| && route.stops[k].orderId in c.orders
    ensures row.stops[k] == NewStop(c.orders[route.stops[k].orderId], c.now, row.id, row.id + 1 + k, route.stops[k], PrecedenceOf(row.id + 1, route.stops, k))
  {
    assert forall i {:trigger route.stops[i]} :: 0 <= i < |route.stops| ==> StopBuildable(c.orders, route.stops, i);
    NewStopAt(c.orders, c.now, row.id, route.stops, |route.stops|, k);
  }

  lemma {:induction false} StopIsStored(facts: Facts, roads: Roads, planId: Id, route: SolverRoute, row: Route, no: nat, k: nat, i: nat)
    requires var c := ContextOf(facts, roads, planId); Buildable(c, route) && row == NewRoute(c, row.id, no, route)
    requires k < |route.stops| && OrderAt(facts.orders, route.stops[k].orderId, i)
    ensures |row.stops| == |route.stops| && StopStored(facts.now, facts.orders[i], route.stops, row, k)
  {
    var c, o := ContextOf(facts, roads, planId), route.stops[k].orderId;
    StopIdAt(c, route, row, no, k);
    OrdersAre(facts.orders, o);
    if route.stops[k].kind == Delivery {
      assert StopBuildable(c.orders, route.stops, k);
      OriginKeys(row.id + 1, route.stops, k);
      var q := OriginIsLast(row.id + 1, route.stops, k, o);
      StopIdAt(c, route, row, no, q);
    }
  }

  lemma {:induction false} RouteIsStored(facts: Facts, roads: Roads, planId: Id, route: SolverRoute, row: Route, no: nat)
    requires var c := ContextOf(facts, roads, planId); Buildable(c, route) && row == NewRoute(c, row.id, no, route)
    ensures RouteTells(facts, roads, planId, route, row, no)
  {
    var c := ContextOf(facts, roads, planId);
    PairsAre(facts.pairs, route.vehicleId);
    var p :| PairAt(facts.pairs, route.vehicleId, p);
    forall k | 0 <= k < |route.stops| ensures row.stops[k].id == row.id + 1 + k { StopIdAt(c, route, row, no, k); }
    assert RouteStored(facts.now, planId, roads, facts.pairs[p], route, row, no);
    forall k, i | 0 <= k < |route.stops| && OrderAt(facts.orders, route.stops[k].orderId, i)
      ensures StopStored(facts.now, facts.orders[i], route.stops, row, k)
    {
      StopIsStored(facts, roads, planId, route, row, no, k, i);
    }
  }

  /** The next version of the plan of the day, current if it is activated and a draft otherwise. */
  ghost predicate PlanTells(facts: Facts, result: SolverResult, roads: Roads, latest: Option<PlanRow>, activatedAt: Option<Instant>, plan: PlanRow) {
    && (if latest.Some? then
          plan.group == latest.value.group && plan.version == latest.value.version + 1 && plan.parent == Some(latest.value.id)
        else plan.group != plan.id && plan.version == 1 && plan.parent == None)
    && plan.activatedAt == activatedAt && plan.status == (if activatedAt == None then PlanDraft else PlanCurrent)
    && (roads == None ==> plan.distance == result.totalDistance) && plan.duration == result.totalDuration
    && plan.vehicleCount == |result.routes|
    && plan.unassignedCount == |result.unassigned| && plan.assignedCount + plan.unassignedCount == |facts.orders|
  }

  ghost predicate Visits(routes: seq<SolverRoute>, i: int, o: Id) {
    0 <= i < |routes| && exists k :: 0 <= k < |routes[i].stops| && routes[i].stops[k].orderId == o
  }

  /** Route i is the last of the first n that visits the order. */
  ghost predicate LastVisit(routes: seq<SolverRoute>, n: nat, o: Id, i: int) {
    i < n && Visits(routes, i, o) && forall j :: i < j < n ==> !Visits(routes, j, o)
  }

  /** An order is on the row of the last route that visits it, or unassigned for the solver's reason. */
  ghost predicate MemberTells(result: SolverResult, rows: seq<Route>, o: Id, m: Membership)
    requires |rows| == |result.routes|
  {
    && m.orderId == o
    && (forall i :: LastVisit(result.routes, |rows|, o, i) ==> m == OnRouteRow(o, rows[i].id))
    && ((forall i :: !Visits(result.routes, i, o)) ==>
         m.UnassignedRow? && forall j :: ReasonAt(result.unassigned, o, j) ==> m.reason == result.unassigned[j].reason)
  }

  lemma {:induction false} VisitsWithStops(routeByOrder: map<Id, Id>, routeId: Id, routes: seq<SolverRoute>, i: nat, o: Id)
    requires i < |routes|
    ensures var after := WithStops(routeByOrder, routeId, routes[i].stops, |routes[i].stops|);
            if Visits(routes, i, o) then o in after && after[o] == routeId
            else (o in after <==> o in routeByOrder) && (o in after ==> after[o] == routeByOrder[o])
  {
    WithStopsIs(routeByOrder, routeId, routes[i].stops, |routes[i].stops|, o);
  }

  lemma {:induction false} RouteByOrderIsLast(first: Id, routes: seq<SolverRoute>, n: nat, o: Id)
    requires n <= |routes|
    ensures forall i :: LastVisit(routes, n, o, i) ==>
              o in RouteByOrder(first, routes, n) && RouteByOrder(first, routes, n)[o] == RouteIdAt(first, routes, i)
    ensures (forall i :: i < n ==> !Visits(routes, i, o)) ==> o !in RouteByOrder(first, routes, n)
  {
    if 0 < n {
      RouteByOrderIsLast(first, routes, n - 1, o);
      VisitsWithStops(RouteByOrder(first, routes, n - 1), RouteIdAt(first, routes, n - 1), routes, n - 1, o);
      forall i | LastVisit(routes, n, o, i) ensures i == n - 1 || (LastVisit(routes, n - 1, o, i) && !Visits(routes, n - 1, o)) { }
    }
  }

  lemma {:induction false} RowTells(facts: Facts, result: SolverResult, roads: Roads, planId: Id, first: Id, i: nat)
    requires RoutesBuildable(ContextOf(facts, roads, planId), result.routes, |result.routes|) && i < |result.routes|
    ensures var row := NewRoutes(ContextOf(facts, roads, planId), first, result.routes, |result.routes|)[i];
            row.id == RouteIdAt(first, result.routes, i) && RouteTells(facts, roads, planId, result.routes[i], row, i + 1)
  {
    var c := ContextOf(facts, roads, planId);
    NewRouteAt(c, first, result.routes, |result.routes|, i);
    RouteIsStored(facts, roads, planId, result.routes[i], NewRoutes(c, first, result.routes, |result.routes|)[i], i + 1);
  }

  lemma {:induction false} MembershipTells(facts: Facts, result: SolverResult, rows: seq<Route>, first: Id, i: nat)
    requires i < |facts.orders| && |rows| == |result.routes|
    requires forall j :: 0 <= j < |rows| ==> rows[j].id == RouteIdAt(first, result.routes, j)
    requires AllSettled(RouteByOrder(first, result.routes, |rows|), ReasonByOrder(result.unassigned), facts.orders, |facts.orders|)
    ensures MemberTells(result, rows, facts.orders[i].orderId,
              Memberships(RouteByOrder(first, result.routes, |rows|), ReasonByOrder(result.unassigned), facts.orders, |facts.orders|)[i])
  {
    var routeByOrder, reasons := RouteByOrder(first, result.routes, |rows|), ReasonByOrder(result.unassigned);
    MembershipAt(routeByOrder, reasons, facts.orders, |facts.orders|, i);
    RouteByOrderIsLast(first, result.routes, |rows|, facts.orders[i].orderId);
    ReasonsAre(result.unassigned, facts.orders[i].orderId);
    assert Settled(routeByOrder, reasons, facts.orders[i].orderId);
  }

  /** What a successful call adds: its plan, a row per solver route in their order, and a membership per
      order. */
  lemma {:induction false} StoredTells(facts: Facts, result: SolverResult, roads: Roads, latest: Option<PlanRow>, activatedAt: Option<Instant>,
      planId: Id, first: Id)
    requires AllBuildable(facts, result, ContextOf(facts, roads, planId), first)
    ensures var c := ContextOf(facts, roads, planId);
            var rows, members := NewRoutes(c, first, result.routes, |result.routes|), NewMemberships(facts, result, c, first);
            && PlanTells(facts, result, roads, latest, activatedAt, NewPlan(facts, result, roads, latest, activatedAt, planId))
            && |rows| == |result.routes| && |members| == |facts.orders|
            && (forall i :: 0 <= i < |rows| ==> RouteTells(facts, roads, planId, result.routes[i], rows[i], i + 1))
            && forall i :: 0 <= i < |members| ==> MemberTells(result, rows, facts.orders[i].orderId, members[i])
  {
    var rows := NewRoutes(ContextOf(facts, roads, planId), first, result.routes, |result.routes|);
    forall i | 0 <= i < |rows|
      ensures rows[i].id == RouteIdAt(first, result.routes, i) && RouteTells(facts, roads, planId, result.routes[i], rows[i], i + 1)
    {
      RowTells(facts, result, roads, planId, first, i);
    }
    forall i | 0 <= i < |facts.orders|
      ensures MemberTells(result, rows, facts.orders[i].orderId, NewMemberships(facts, result, ContextOf(facts, roads, planId), first)[i])
    {
      MembershipTells(facts, result, rows, first, i);
    }
  }
}
