/** A plan stored from an accepted solver result: its rows are complete and consistent, and no
    run of stop actions on it ever overloads a vehicle. */
module FinalizedPlan {
  import opened Ordering
  import opened Domain
  import opened Optimization
  import opened Checker
  import opened Feasibility
  import opened Finalizer
  import opened Execution
  import opened ExecutionInvariants

  // ----- what acceptance says about the planning facts -----

  ghost predicate Certified(input: SolverInput, result: SolverResult) {
    && input.Valid() && result.status == Feasible
    && StartsInMatrix(input, VehiclesById(input.vehicles)) && Accepted(input, result)
  }

  /** Stops p and d are the only ones of the order; it is picked up, then delivered. */
  ghost predicate PickedThenDropped(stops: seq<SolverStop>, o: Id, p: int, d: int) {
    OnlyAtBoth(stops, o, p, d) && stops[p].kind == Pickup && stops[d].kind == Delivery
  }

  function Cargo(orders: map<Id, PlanningOrder>, stops: seq<SolverStop>, n: nat): int
    requires n <= |stops|
  {
    if n == 0 then 0
    else
      var stop := stops[n - 1];
      Cargo(orders, stops, n - 1)
      + if stop.orderId !in orders then 0
        else if stop.kind == Delivery then -orders[stop.orderId].demand else orders[stop.orderId].demand
  }

  ghost predicate StopFits(orders: map<Id, PlanningOrder>, stops: seq<SolverStop>, k: nat)
    requires k < |stops|
  {
    && stops[k].orderId in orders && stops[k].sequenceNo == k + 1
    && exists p, d :: PickedThenDropped(stops, stops[k].orderId, p, d)
  }

  ghost predicate RouteFits(orders: map<Id, PlanningOrder>, pair: Pair, route: SolverRoute) {
    && (forall k :: 0 <= k < |route.stops| ==> StopFits(orders, route.stops, k))
    && forall n :: 0 <= n <= |route.stops| ==> 0 <= Cargo(orders, route.stops, n) <= pair.capacity
  }

  ghost predicate Routed(orders: map<Id, PlanningOrder>, pairs: map<Id, Pair>, result: SolverResult) {
    && (forall i :: 0 <= i < |result.routes| ==>
         result.routes[i].vehicleId in pairs && RouteFits(orders, pairs[result.routes[i].vehicleId], result.routes[i]))
    && (forall o :: o in orders ==> SettledOnce(result, o))
    && (forall j :: 0 <= j < |result.unassigned| ==> result.unassigned[j].orderId in orders)
  }

  lemma {:induction false} CargoIsLoad(now: Instant, orders: map<Id, PlanningOrder>, theirs: Orders, stops: seq<SolverStop>, n: nat)
    requires n <= |stops| && orders.Keys == theirs.Keys
    requires forall o :: o in orders ==> theirs[o] == AsSolverOrder(now, orders[o])
    ensures Cargo(orders, stops, n) == Load(theirs, 0, stops, n)
  {
    if 0 < n { CargoIsLoad(now, orders, theirs, stops, n - 1); }
  }

  lemma {:induction false} FeasibleRouteFits(facts: Facts, input: SolverInput, vehicle: SolverVehicle, pair: Pair, route: SolverRoute)
    requires input.Valid() && input.orders == AsSolverOrders(facts.now, facts.orders)
    requires vehicle.start in input.locations && vehicle.initialLoad == 0 && vehicle.capacity == pair.capacity
    requires FeasibleRoute(input, OrdersById(input.orders), vehicle, route)
    ensures RouteFits(PlanningOrdersById(facts.orders), pair, route)
  {
    var orders, theirs := PlanningOrdersById(facts.orders), OrdersById(input.orders);
    OrdersAgree(facts.now, facts.orders);
    var stops := route.stops;
    forall k | 0 <= k < |stops| ensures StopFits(orders, stops, k) {
      assert Honest(theirs, stops, k);
      var o := stops[k].orderId;
      assert o in Served(theirs, stops);
      assert theirs[o] == AsSolverOrder(facts.now, orders[o]);
      assert Carried(theirs[o], vehicle, stops);
      var p, d :| OnlyAtBoth(stops, o, p, d)
        && IsStopOf(stops[p], theirs[o], theirs[o].OriginKind(), theirs[o].Origin().value)
        && IsStopOf(stops[d], theirs[o], Delivery, theirs[o].delivery);
      assert PickedThenDropped(stops, o, p, d);
    }
    forall n | 0 <= n <= |stops| ensures 0 <= Cargo(orders, stops, n) <= pair.capacity {
      CargoIsLoad(facts.now, orders, theirs, stops, n);
    }
  }

  lemma {:induction false} CertifiedIsRouted(facts: Facts, locations: seq<Id>, distances: Matrix, durations: Matrix, result: SolverResult)
    requires Certified(BuildSolverInput(facts, locations, distances, durations), result)
    ensures Routed(PlanningOrdersById(facts.orders), PairsByVehicle(facts.pairs), result)
    ensures forall i, j :: 0 <= i < j < |facts.orders| ==> facts.orders[i].orderId != facts.orders[j].orderId
    ensures result.totalDistance == TotalDistance(result.routes, |result.routes|)
    ensures forall i, j :: 0 <= i < j < |result.routes| ==> result.routes[i].vehicleId != result.routes[j].vehicleId
  {
    var input := BuildSolverInput(facts, locations, distances, durations);
    AcceptedIffFeasible(input, result);
    OrdersAgree(facts.now, facts.orders);
    var end := PlanningEnd(facts, |facts.orders|);
    VehiclesAgree(facts.now, end, facts.pairs);
    var pairs, vehicles := PairsByVehicle(facts.pairs), VehiclesById(input.vehicles);
    forall i | 0 <= i < |result.routes|
      ensures result.routes[i].vehicleId in pairs
      ensures RouteFits(PlanningOrdersById(facts.orders), pairs[result.routes[i].vehicleId], result.routes[i])
    {
      var v := result.routes[i].vehicleId;
      assert vehicles[v] == AsSolverVehicle(facts.now, end, pairs[v]);
      FeasibleRouteFits(facts, input, vehicles[v], pairs[v], result.routes[i]);
    }
    forall i, j | 0 <= i < j < |facts.orders| ensures facts.orders[i].orderId != facts.orders[j].orderId {
      assert input.orders[i].orderId != input.orders[j].orderId;
    }
  }

  // ----- every lookup succeeds -----

  /** The origin of an order, when it is its only stop so far. */
  lemma {:induction false} OriginOf(first: Id, stops: seq<SolverStop>, n: nat, o: Id, p: nat)
    requires p < n <= |stops| && stops[p].orderId == o && stops[p].kind != Delivery
    requires forall i :: 0 <= i < n && stops[i].orderId == o ==> i == p
    ensures o in Origins(first, stops, n) && Origins(first, stops, n)[o] == first + p
  {
    if p < n - 1 { OriginOf(first, stops, n - 1, o, p); }
  }

  lemma {:induction false} FittingStopIsBuildable(orders: map<Id, PlanningOrder>, stops: seq<SolverStop>, k: nat)
    requires k < |stops| && StopFits(orders, stops, k)
    ensures StopBuildable(orders, stops, k)
  {
    if stops[k].kind == Delivery {
      var p, d :| PickedThenDropped(stops, stops[k].orderId, p, d);
      OriginOf(0, stops, k, stops[k].orderId, p);
    }
  }

  lemma {:induction false} WithStopsIs(routeByOrder: map<Id, Id>, routeId: Id, stops: seq<SolverStop>, n: nat, o: Id)
    requires n <= |stops|
    ensures var after := WithStops(routeByOrder, routeId, stops, n);
            if exists k :: 0 <= k < n && stops[k].orderId == o then o in after && after[o] == routeId
            else (o in after <==> o in routeByOrder) && (o in after ==> after[o] == routeByOrder[o])
  {
    if 0 < n {
      WithStopsIs(routeByOrder, routeId, stops, n - 1, o);
    }
  }

  /** `route_by_order_id` names the one route with stops of the order. */
  lemma {:induction false} RouteByOrderIs(first: Id, routes: seq<SolverRoute>, n: nat, o: Id)
    requires n <= |routes| && forall i, j :: OnRoute(routes, i, o) && OnRoute(routes, j, o) ==> i == j
    ensures forall i :: i < n && OnRoute(routes, i, o) ==>
              o in RouteByOrder(first, routes, n) && RouteByOrder(first, routes, n)[o] == RouteIdAt(first, routes, i)
    ensures o in RouteByOrder(first, routes, n) ==> exists i :: i < n && OnRoute(routes, i, o)
  {
    if 0 < n {
      RouteByOrderIs(first, routes, n - 1, o);
      var stops := routes[n - 1].stops;
      WithStopsIs(RouteByOrder(first, routes, n - 1), RouteIdAt(first, routes, n - 1), stops, |stops|, o);
      assert OnRoute(routes, n - 1, o) <==> exists k :: 0 <= k < |stops| && stops[k].orderId == o;
    }
  }

  lemma {:induction false} ReasonByOrderIs(unassigned: seq<SolverUnassigned>, o: Id)
    ensures o in ReasonByOrder(unassigned) <==> exists j :: ListedAt(unassigned, j, o)
  {
    if unassigned != [] {
      var front := unassigned[..|unassigned| - 1];
      ReasonByOrderIs(front, o);
      if j :| ListedAt(front, j, o) {
        assert ListedAt(unassigned, j, o);
      }
      if j :| ListedAt(unassigned, j, o) {
        assert j == |unassigned| - 1 || ListedAt(front, j, o);
      }
      assert unassigned[|unassigned| - 1].orderId == o ==> ListedAt(unassigned, |unassigned| - 1, o);
    }
  }

  lemma {:induction false} PlanningOrderKeys(orders: seq<PlanningOrder>)
    ensures forall i :: 0 <= i < |orders| ==> orders[i].orderId in PlanningOrdersById(orders)
    ensures forall o :: o in PlanningOrdersById(orders) ==> exists i :: 0 <= i < |orders| && orders[i].orderId == o
  {
    if orders != [] { PlanningOrderKeys(orders[..|orders| - 1]); }
  }

  ghost predicate NoEmptyRoute(routes: seq<SolverRoute>) {
    forall i :: 0 <= i < |routes| ==> routes[i].stops != []
  }

  /** A certified result can be stored exactly when it has no empty route: nothing in the
      checker rules one out, and the finalizer asks every route for its last stop. */
  lemma {:induction false} StorableIffNoEmptyRoute(facts: Facts, locations: seq<Id>, distances: Matrix, durations: Matrix,
                                result: SolverResult, roads: Roads, planId: Id, first: Id)
    requires Certified(BuildSolverInput(facts, locations, distances, durations), result)
    ensures AllBuildable(facts, result, ContextOf(facts, roads, planId), first) <==> NoEmptyRoute(result.routes)
  {
    CertifiedIsRouted(facts, locations, distances, durations, result);
    var c := ContextOf(facts, roads, planId);
    if NoEmptyRoute(result.routes) {
      forall i | 0 <= i < |result.routes| ensures Buildable(c, result.routes[i]) {
        assert RouteFits(c.orders, c.pairs[result.routes[i].vehicleId], result.routes[i]);
        forall k | 0 <= k < |result.routes[i].stops| ensures StopBuildable(c.orders, result.routes[i].stops, k) {
          FittingStopIsBuildable(c.orders, result.routes[i].stops, k);
        }
      }
      AllAreSettled(facts.orders, result, first);
    }
    if AllBuildable(facts, result, c, first) {
      assert forall i :: 0 <= i < |result.routes| ==> Buildable(c, result.routes[i]);
    }
  }

  lemma {:induction false} AllAreSettled(orders: seq<PlanningOrder>, result: SolverResult, first: Id)
    requires forall o :: o in PlanningOrdersById(orders) ==> SettledOnce(result, o)
    ensures AllSettled(RouteByOrder(first, result.routes, |result.routes|), ReasonByOrder(result.unassigned), orders, |orders|)
  {
    PlanningOrderKeys(orders);
    forall i | 0 <= i < |orders|
      ensures Settled(RouteByOrder(first, result.routes, |result.routes|), ReasonByOrder(result.unassigned), orders[i].orderId)
    {
      var o := orders[i].orderId;
      assert SettledOnce(result, o);
      RouteByOrderIs(first, result.routes, |result.routes|, o);
      ReasonByOrderIs(result.unassigned, o);
    }
  }

  // ----- memberships and totals -----

  function OnRouteCount(members: seq<Membership>): nat {
    if members == [] then 0
    else OnRouteCount(members[..|members| - 1]) + if members[|members| - 1].OnRouteRow? then 1 else 0
  }

  lemma {:induction false} CountOneMore(members: seq<Membership>, m: Membership)
    ensures OnRouteCount(members + [m]) == OnRouteCount(members) + if m.OnRouteRow? then 1 else 0
  {
    assert (members + [m])[..|members|] == members;
  }

  /** The first n orders without a route. */
  ghost function Left(routeByOrder: map<Id, Id>, orders: seq<PlanningOrder>, n: nat): set<Id>
    requires n <= |orders|
  {
    set i | 0 <= i < n && orders[i].orderId !in routeByOrder :: orders[i].orderId
  }

  lemma {:induction false} LeftOneMore(routeByOrder: map<Id, Id>, orders: seq<PlanningOrder>, n: nat)
    requires n < |orders|
    requires forall i, j :: 0 <= i < j < |orders| ==> orders[i].orderId != orders[j].orderId
    ensures |Left(routeByOrder, orders, n + 1)| ==
              |Left(routeByOrder, orders, n)| + if orders[n].orderId in routeByOrder then 0 else 1
  {
    var o := orders[n].orderId;
    var before := Left(routeByOrder, orders, n);
    assert o !in before;
    assert Left(routeByOrder, orders, n + 1) == if o in routeByOrder then before else before + {o};
  }

  lemma {:induction false} CountsSplit(routeByOrder: map<Id, Id>, reasons: map<Id, nat>, orders: seq<PlanningOrder>, n: nat)
    requires n <= |orders| && AllSettled(routeByOrder, reasons, orders, n)
    requires forall i, j :: 0 <= i < j < |orders| ==> orders[i].orderId != orders[j].orderId
    ensures OnRouteCount(Memberships(routeByOrder, reasons, orders, n)) + |Left(routeByOrder, orders, n)| == n
  {
    if n == 0 {
      assert Left(routeByOrder, orders, n) == {};
    } else {
      CountsSplit(routeByOrder, reasons, orders, n - 1);
      LeftOneMore(routeByOrder, orders, n - 1);
      CountOneMore(Memberships(routeByOrder, reasons, orders, n - 1), MembershipOf(routeByOrder, reasons, orders[n - 1].orderId));
    }
  }

  ghost function ListedOrders(unassigned: seq<SolverUnassigned>, n: nat): set<Id>
    requires n <= |unassigned|
  {
    set j | 0 <= j < n :: unassigned[j].orderId
  }

  lemma {:induction false} ListedOnceEach(unassigned: seq<SolverUnassigned>, n: nat)
    requires n <= |unassigned|
    requires forall i, j :: 0 <= i < j < |unassigned| ==> unassigned[i].orderId != unassigned[j].orderId
    ensures |ListedOrders(unassigned, n)| == n
  {
    if 0 < n {
      ListedOnceEach(unassigned, n - 1);
      assert ListedOrders(unassigned, n) == ListedOrders(unassigned, n - 1) + {unassigned[n - 1].orderId};
    }
  }

  /** Row i of the memberships settles order i: on the row of the route that serves it, or
      unassigned when none does. */
  ghost predicate SettledBy(first: Id, routes: seq<SolverRoute>, o: Id, m: Membership) {
    && m.orderId == o
    && (m.OnRouteRow? <==> exists i :: OnRoute(routes, i, o))
    && (m.OnRouteRow? ==> exists i :: OnRoute(routes, i, o) && m.routeId == RouteIdAt(first, routes, i))
  }

  lemma {:induction false} LeftAreListed(orders: seq<PlanningOrder>, result: SolverResult, first: Id)
    requires forall o :: o in PlanningOrdersById(orders) ==> SettledOnce(result, o)
    requires forall j :: 0 <= j < |result.unassigned| ==> result.unassigned[j].orderId in PlanningOrdersById(orders)
    ensures |Left(RouteByOrder(first, result.routes, |result.routes|), orders, |orders|)| == |result.unassigned|
  {
    var unassigned := result.unassigned;
    var routeByOrder := RouteByOrder(first, result.routes, |result.routes|);
    var left, listed := Left(routeByOrder, orders, |orders|), ListedOrders(unassigned, |unassigned|);
    PlanningOrderKeys(orders);
    forall i, j | 0 <= i < j < |unassigned| ensures unassigned[i].orderId != unassigned[j].orderId {
      assert SettledOnce(result, unassigned[i].orderId);
      assert ListedAt(unassigned, i, unassigned[i].orderId);
      assert ListedAt(unassigned, j, unassigned[j].orderId);
    }
    ListedOnceEach(unassigned, |unassigned|);
    forall o | o in PlanningOrdersById(orders) ensures o in left <==> o in listed {
      assert SettledOnce(result, o);
      RouteByOrderIs(first, result.routes, |result.routes|, o);
      if o in listed {
        var j :| 0 <= j < |unassigned| && unassigned[j].orderId == o;
        assert ListedAt(unassigned, j, o);
      }
    }
    assert left == listed;
  }

  lemma {:induction false} MembershipSettles(orders: seq<PlanningOrder>, result: SolverResult, first: Id, i: nat)
    requires i < |orders| && SettledOnce(result, orders[i].orderId)
    requires AllSettled(RouteByOrder(first, result.routes, |result.routes|), ReasonByOrder(result.unassigned), orders, |orders|)
    ensures SettledBy(first, result.routes, orders[i].orderId,
              Memberships(RouteByOrder(first, result.routes, |result.routes|), ReasonByOrder(result.unassigned), orders, |orders|)[i])
  {
    MembershipAt(RouteByOrder(first, result.routes, |result.routes|), ReasonByOrder(result.unassigned), orders, |orders|, i);
    RouteByOrderIs(first, result.routes, |result.routes|, orders[i].orderId);
  }

  /** The stored memberships settle every order of the day exactly once and the counts stored
      with the plan are the counts of its rows. */
  lemma {:induction false} MembershipsSettleEveryOrder(facts: Facts, locations: seq<Id>, distances: Matrix, durations: Matrix,
                                    result: SolverResult, c: Context, first: Id, plan: PlanRow, latest: Option<PlanRow>,
                                    activatedAt: Option<Instant>)
    requires Certified(BuildSolverInput(facts, locations, distances, durations), result)
    requires AllBuildable(facts, result, c, first)
    requires plan == NewPlan(facts, result, c.roads, latest, activatedAt, c.planId)
    ensures var members := NewMemberships(facts, result, c, first);
            && |members| == |facts.orders|
            && (forall i :: 0 <= i < |members| ==> SettledBy(first, result.routes, facts.orders[i].orderId, members[i]))
            && OnRouteCount(members) == plan.assignedCount
            && |members| - OnRouteCount(members) == plan.unassignedCount
  {
    CertifiedIsRouted(facts, locations, distances, durations, result);
    PlanningOrderKeys(facts.orders);
    forall i | 0 <= i < |facts.orders|
      ensures SettledBy(first, result.routes, facts.orders[i].orderId, NewMemberships(facts, result, c, first)[i])
    {
      MembershipSettles(facts.orders, result, first, i);
    }
    CountsSplit(RouteByOrder(first, result.routes, |result.routes|), ReasonByOrder(result.unassigned), facts.orders, |facts.orders|);
    LeftAreListed(facts.orders, result, first);
  }

  function StoredDistance(rows: seq<Route>): int {
    if rows == [] then 0 else StoredDistance(rows[..|rows| - 1]) + rows[|rows| - 1].distance
  }

  ghost function Driven(routes: seq<SolverRoute>, n: nat): set<Id>
    requires n <= |routes|
  {
    set i | 0 <= i < n :: routes[i].vehicleId
  }

  /** What the first n routes add to the plan. */
  ghost function DistanceSoFar(roads: Roads, routes: seq<SolverRoute>, n: nat): int
    requires n <= |routes| && RoadsCover(roads, routes)
  {
    assert roads.Some? ==> Driven(routes, n) <= roads.value.Keys;
    if roads.Some? then Total(roads.value, Driven(routes, n)) else TotalDistance(routes, n)
  }

  lemma {:induction false} DistanceSoFarOneMore(roads: Roads, routes: seq<SolverRoute>, n: nat)
    requires n < |routes| && RoadsCover(roads, routes)
    requires forall i, j :: 0 <= i < j < |routes| ==> routes[i].vehicleId != routes[j].vehicleId
    ensures DistanceSoFar(roads, routes, n + 1) == DistanceSoFar(roads, routes, n) + RoadDistance(roads, routes[n])
  {
    if roads.Some? {
      assert Driven(routes, n + 1) == Driven(routes, n) + {routes[n].vehicleId};
      TotalAdd(roads.value, Driven(routes, n), routes[n].vehicleId);
    }
  }

  lemma {:induction false} StoredDistanceOneMore(rows: seq<Route>, n: nat)
    requires n < |rows|
    ensures StoredDistance(rows[..n + 1]) == StoredDistance(rows[..n]) + rows[n].distance
  {
    assert rows[..n + 1][..n] == rows[..n];
  }

  lemma {:induction false} DistancesAddUp(roads: Roads, rows: seq<Route>, routes: seq<SolverRoute>, n: nat)
    requires n <= |routes| == |rows| && RoadsCover(roads, routes)
    requires forall i :: 0 <= i < |rows| ==> rows[i].distance == RoadDistance(roads, routes[i])
    requires forall i, j :: 0 <= i < j < |routes| ==> routes[i].vehicleId != routes[j].vehicleId
    ensures StoredDistance(rows[..n]) == DistanceSoFar(roads, routes, n)
  {
    if n == 0 {
      assert Driven(routes, 0) == {};
    } else {
      DistancesAddUp(roads, rows, routes, n - 1);
      DistanceSoFarOneMore(roads, routes, n - 1);
      StoredDistanceOneMore(rows, n - 1);
    }
  }

  lemma {:induction false} RowDistance(c: Context, first: Id, routes: seq<SolverRoute>, i: nat)
    requires i < |routes| && RoutesBuildable(c, routes, |routes|)
    ensures NewRoutes(c, first, routes, |routes|)[i].distance == RoadDistance(c.roads, routes[i])
  {
    NewRouteAt(c, first, routes, |routes|, i);
  }

  /** The distance stored with the plan is the sum over its routes, whether the routes carry
      road distances or matrix distances. */
  lemma {:induction false} PlanDistanceIsSumOfRoutes(facts: Facts, locations: seq<Id>, distances: Matrix, durations: Matrix,
                                  result: SolverResult, c: Context, first: Id, latest: Option<PlanRow>, activatedAt: Option<Instant>)
    requires Certified(BuildSolverInput(facts, locations, distances, durations), result)
    requires AllBuildable(facts, result, c, first) && RoadsCover(c.roads, result.routes)
    ensures NewPlan(facts, result, c.roads, latest, activatedAt, c.planId).distance ==
              StoredDistance(NewRoutes(c, first, result.routes, |result.routes|))
  {
    CertifiedIsRouted(facts, locations, distances, durations, result);
    var rows := NewRoutes(c, first, result.routes, |result.routes|);
    forall i | 0 <= i < |rows| ensures rows[i].distance == RoadDistance(c.roads, result.routes[i]) {
      RowDistance(c, first, result.routes, i);
    }
    DistancesAddUp(c.roads, rows, result.routes, |rows|);
    assert rows[..|rows|] == rows;
    assert c.roads.Some? ==> Driven(result.routes, |rows|) == c.roads.value.Keys;
  }

  // ----- the stored stops -----

  /** A stop row and the solver stop it was made from. */
  ghost predicate MadeFrom(orders: map<Id, PlanningOrder>, stop: Stop, s: SolverStop) {
    && s.orderId in orders && stop.orderId == s.orderId && stop.kind == s.kind && stop.sequenceNo == s.sequenceNo
    && stop.demand == orders[s.orderId].demand
    && stop.status == Planned && stop.actualArrival == None && stop.actualDeparture == None
  }

  lemma {:induction false} RowMadeFrom(c: Context, routeId: Id, routeNo: int, route: SolverRoute, k: nat)
    requires Buildable(c, route) && k < |route.stops|
    ensures MadeFrom(c.orders, NewRoute(c, routeId, routeNo, route).stops[k], route.stops[k])
    ensures NewRoute(c, routeId, routeNo, route).stops[k].id == routeId + 1 + k
    ensures NewRoute(c, routeId, routeNo, route).stops[k].precedence == PrecedenceOf(routeId + 1, route.stops, k)
  {
    assert forall k {:trigger route.stops[k]} :: 0 <= k < |route.stops| ==> StopBuildable(c.orders, route.stops, k);
    NewStopAt(c.orders, c.now, routeId, route.stops, |route.stops|, k);
  }

  /** Stop k of row i, in full. */
  lemma {:induction false} RowIs(c: Context, first: Id, routes: seq<SolverRoute>, i: nat, k: nat)
    requires i < |routes| && RoutesBuildable(c, routes, |routes|) && k < |routes[i].stops|
    ensures |NewRoutes(c, first, routes, |routes|)[i].stops| == |routes[i].stops| && routes[i].stops[k].orderId in c.orders
    ensures NewRoutes(c, first, routes, |routes|)[i].stops[k]
            == NewStop(c.orders[routes[i].stops[k].orderId], c.now, RouteIdAt(first, routes, i), RouteIdAt(first, routes, i) + 1 + k,
                       routes[i].stops[k], PrecedenceOf(RouteIdAt(first, routes, i) + 1, routes[i].stops, k))
  {
    NewRouteAt(c, first, routes, |routes|, i);
    assert Buildable(c, routes[i]);
    assert forall k {:trigger routes[i].stops[k]} :: 0 <= k < |routes[i].stops| ==> StopBuildable(c.orders, routes[i].stops, k);
    NewStopAt(c.orders, c.now, RouteIdAt(first, routes, i), routes[i].stops, |routes[i].stops|, k);
  }

  /** A stored delivery names, as its precedence, the one stop of its route where its order is
      picked up, and that stop comes earlier; a pickup names none. */
  lemma {:induction false} PrecedenceIsTheEarlierPickup(c: Context, routeId: Id, routeNo: int, route: SolverRoute, pair: Pair, k: nat)
    requires Buildable(c, route) && RouteFits(c.orders, pair, route) && k < |route.stops|
    ensures var stops := NewRoute(c, routeId, routeNo, route).stops;
            if stops[k].kind == Delivery then
              exists p :: 0 <= p < k && stops[k].precedence == Some(stops[p].id)
                && stops[p].orderId == stops[k].orderId && stops[p].kind == Pickup
            else stops[k].precedence == None
  {
    RowMadeFrom(c, routeId, routeNo, route, k);
    assert StopFits(c.orders, route.stops, k);
    var o := route.stops[k].orderId;
    var p, d :| PickedThenDropped(route.stops, o, p, d);
    RowMadeFrom(c, routeId, routeNo, route, p);
    if k == d {
      OriginOf(routeId + 1, route.stops, k, o, p);
    }
  }
}
