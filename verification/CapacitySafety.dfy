/** No run of stop actions on a stored plan ever overloads a vehicle. */
module CapacitySafety {
  import opened Ordering
  import opened Domain
  import opened Optimization
  import opened Feasibility
  import opened Finalizer
  import opened FinalizedPlan
  import opened Execution
  import opened ExecutionInvariants

  // ----- cargo on board, by the solver route -----

  /** Taken on and not yet dropped after the first n stops. */
  ghost predicate Aboard(stops: seq<SolverStop>, o: Id, n: nat) {
    exists p, d :: PickedThenDropped(stops, o, p, d) && p < n <= d
  }

  ghost function AboardSet(stops: seq<SolverStop>, n: nat): set<Id> {
    set k | 0 <= k < |stops| && Aboard(stops, stops[k].orderId, n) :: stops[k].orderId
  }

  function Demands(orders: map<Id, PlanningOrder>): map<Id, int> {
    map o | o in orders :: orders[o].demand
  }

  lemma {:induction false} AboardAfter(stops: seq<SolverStop>, o: Id, p: int, d: int, n: nat)
    requires n <= |stops| && PickedThenDropped(stops, o, p, d)
    ensures Aboard(stops, o, n) <==> p < n <= d
    ensures o in AboardSet(stops, n) <==> p < n <= d
  {
    assert stops[p].orderId == o;
    if Aboard(stops, o, n) {
      var q, e :| PickedThenDropped(stops, o, q, e) && q < n <= e;
    }
  }

  lemma {:induction false} OthersStayAboard(stops: seq<SolverStop>, x: Id, n: nat)
    requires 0 < n <= |stops| && stops[n - 1].orderId != x
    ensures x in AboardSet(stops, n) <==> x in AboardSet(stops, n - 1)
  {
    if x in AboardSet(stops, n) {
      var p, d :| PickedThenDropped(stops, x, p, d) && p < n <= d;
      assert Aboard(stops, stops[p].orderId, n - 1);
    }
    if x in AboardSet(stops, n - 1) {
      var p, d :| PickedThenDropped(stops, x, p, d) && p < n - 1 <= d;
      assert Aboard(stops, stops[p].orderId, n);
    }
  }

  ghost predicate AllFit(orders: map<Id, PlanningOrder>, stops: seq<SolverStop>) {
    forall k :: 0 <= k < |stops| ==> StopFits(orders, stops, k)
  }

  lemma {:induction false} AboardIsKnown(orders: map<Id, PlanningOrder>, stops: seq<SolverStop>, n: nat)
    requires AllFit(orders, stops)
    ensures AboardSet(stops, n) <= orders.Keys
  {
    forall o | o in AboardSet(stops, n) ensures o in orders {
      var k :| 0 <= k < |stops| && stops[k].orderId == o;
      assert StopFits(orders, stops, k);
    }
  }

  /** Stop n takes its order on or drops it, and leaves the others alone. */
  lemma {:induction false} AboardOneMore(orders: map<Id, PlanningOrder>, stops: seq<SolverStop>, n: nat)
    requires n < |stops| && AllFit(orders, stops)
    ensures var o, before, now := stops[n].orderId, AboardSet(stops, n), AboardSet(stops, n + 1);
            if stops[n].kind == Delivery then o !in now && before == now + {o} else o !in before && now == before + {o}
  {
    var o := stops[n].orderId;
    assert StopFits(orders, stops, n);
    var p, d :| PickedThenDropped(stops, o, p, d);
    AboardAfter(stops, o, p, d, n);
    AboardAfter(stops, o, p, d, n + 1);
    forall x | x != o ensures x in AboardSet(stops, n + 1) <==> x in AboardSet(stops, n) {
      OthersStayAboard(stops, x, n + 1);
    }
  }

  lemma {:induction false} WeightOneMore(orders: map<Id, PlanningOrder>, stops: seq<SolverStop>, n: nat)
    requires n < |stops| && AllFit(orders, stops)
    ensures stops[n].orderId in orders && AboardSet(stops, n) <= orders.Keys && AboardSet(stops, n + 1) <= orders.Keys
    ensures Total(Demands(orders), AboardSet(stops, n + 1)) ==
              Total(Demands(orders), AboardSet(stops, n))
              + if stops[n].kind == Delivery then -orders[stops[n].orderId].demand else orders[stops[n].orderId].demand
  {
    assert StopFits(orders, stops, n);
    AboardIsKnown(orders, stops, n);
    AboardIsKnown(orders, stops, n + 1);
    AboardOneMore(orders, stops, n);
    TotalAdd(Demands(orders), AboardSet(stops, if stops[n].kind == Delivery then n + 1 else n), stops[n].orderId);
  }

  /** The running sum of the checker is the total demand of the orders on board. */
  lemma {:induction false} CargoIsTheOrdersAboard(orders: map<Id, PlanningOrder>, stops: seq<SolverStop>, n: nat)
    requires n <= |stops| && AllFit(orders, stops)
    ensures AboardSet(stops, n) <= orders.Keys
    ensures Cargo(orders, stops, n) == Total(Demands(orders), AboardSet(stops, n))
  {
    if n == 0 {
      assert AboardSet(stops, 0) == {};
    } else {
      CargoIsTheOrdersAboard(orders, stops, n - 1);
      WeightOneMore(orders, stops, n - 1);
    }
  }

  // ----- the stored world -----

  /** Row r of the routes is the row made from the solver route. */
  ghost predicate RouteStored(w: World, r: Id, orders: map<Id, PlanningOrder>, pair: Pair, route: SolverRoute) {
    && r in w.routes && FreshRoute(w.routes[r]) && w.routes[r].capacity == pair.capacity
    && |w.routes[r].stops| == |route.stops|
    && forall k :: 0 <= k < |route.stops| ==> MadeFrom(orders, w.routes[r].stops[k], route.stops[k])
  }

  ghost predicate OrdersStored(w: World, orders: map<Id, PlanningOrder>) {
    && w.orders.Keys == orders.Keys
    && forall o :: o in w.orders ==> w.orders[o].status == OrderPlanned && w.orders[o].demand == orders[o].demand
  }

  /** The tables hold the plan: row ids[i] was made from route i and there are no other routes. */
  ghost predicate Stored(w: World, c: Context, ids: seq<Id>, routes: seq<SolverRoute>) {
    && IndexOk(w) && OrdersStored(w, c.orders) && |ids| == |routes|
    && (forall i :: 0 <= i < |ids| ==>
         routes[i].vehicleId in c.pairs && RouteStored(w, ids[i], c.orders, c.pairs[routes[i].vehicleId], routes[i]))
    && (forall r :: r in w.routes ==> r in ids)
  }

  /** The tables hold exactly the rows that `finalize` adds. */
  ghost predicate Installed(w: World, c: Context, rows: seq<Route>) {
    && IndexOk(w) && OrdersStored(w, c.orders)
    && (forall i :: 0 <= i < |rows| ==> rows[i].id in w.routes && w.routes[rows[i].id] == rows[i])
    && (forall r :: r in w.routes ==> exists i :: 0 <= i < |rows| && rows[i].id == r)
  }

  function Ids(rows: seq<Route>): (ids: seq<Id>)
    ensures |ids| == |rows| && forall i :: 0 <= i < |rows| ==> ids[i] == rows[i].id
  {
    if rows == [] then [] else Ids(rows[..|rows| - 1]) + [rows[|rows| - 1].id]
  }

  lemma {:induction false} NewRouteIsStored(w: World, c: Context, routeId: Id, routeNo: int, route: SolverRoute)
    requires Buildable(c, route) && RouteFits(c.orders, c.pairs[route.vehicleId], route)
    requires routeId in w.routes && w.routes[routeId] == NewRoute(c, routeId, routeNo, route)
    ensures RouteStored(w, routeId, c.orders, c.pairs[route.vehicleId], route)
  {
    var row := w.routes[routeId];
    assert |row.stops| == |route.stops|;
    forall k | 0 <= k < |route.stops|
      ensures MadeFrom(c.orders, row.stops[k], route.stops[k]) && row.stops[k].sequenceNo == k + 1 && Untouched(row.stops[k])
    {
      RowMadeFrom(c, routeId, routeNo, route, k);
      assert StopFits(c.orders, route.stops, k);
    }
  }

  lemma {:induction false} RowIsStored(w: World, c: Context, first: Id, result: SolverResult, i: nat)
    requires RoutesBuildable(c, result.routes, |result.routes|) && Routed(c.orders, c.pairs, result)
    requires i < |result.routes|
    requires var row := NewRoutes(c, first, result.routes, |result.routes|)[i]; row.id in w.routes && w.routes[row.id] == row
    ensures RouteStored(w, NewRoutes(c, first, result.routes, |result.routes|)[i].id, c.orders,
                        c.pairs[result.routes[i].vehicleId], result.routes[i])
  {
    NewRouteAt(c, first, result.routes, |result.routes|, i);
    assert Buildable(c, result.routes[i]);
    NewRouteIsStored(w, c, RouteIdAt(first, result.routes, i), i + 1, result.routes[i]);
  }

  lemma {:induction false} RowsAreStored(w: World, c: Context, rows: seq<Route>, result: SolverResult)
    requires Installed(w, c, rows) && |rows| == |result.routes| && Routed(c.orders, c.pairs, result)
    requires forall i :: 0 <= i < |rows| ==>
               RouteStored(w, rows[i].id, c.orders, c.pairs[result.routes[i].vehicleId], result.routes[i])
    ensures Stored(w, c, Ids(rows), result.routes)
  {
    forall r | r in w.routes ensures r in Ids(rows) {
      var i :| 0 <= i < |rows| && rows[i].id == r;
      assert Ids(rows)[i] == r;
    }
  }

  lemma {:induction false} InstalledIsStored(w: World, c: Context, first: Id, result: SolverResult)
    requires RoutesBuildable(c, result.routes, |result.routes|) && Routed(c.orders, c.pairs, result)
    requires Installed(w, c, NewRoutes(c, first, result.routes, |result.routes|))
    ensures Stored(w, c, Ids(NewRoutes(c, first, result.routes, |result.routes|)), result.routes)
  {
    var rows := NewRoutes(c, first, result.routes, |result.routes|);
    forall i | 0 <= i < |rows|
      ensures RouteStored(w, rows[i].id, c.orders, c.pairs[result.routes[i].vehicleId], result.routes[i])
    {
      RowIsStored(w, c, first, result, i);
    }
    RowsAreStored(w, c, rows, result);
  }

  lemma {:induction false} StoredIsFresh(w: World, c: Context, ids: seq<Id>, routes: seq<SolverRoute>)
    requires Stored(w, c, ids, routes)
    ensures Fresh(w)
  {
    forall r | r in w.routes ensures FreshRoute(w.routes[r]) {
      var i :| 0 <= i < |ids| && ids[i] == r;
      assert RouteStored(w, ids[i], c.orders, c.pairs[routes[i].vehicleId], routes[i]);
    }
  }

  lemma {:induction false} HasStopMeans(w: World, r: Id, orders: map<Id, PlanningOrder>, pair: Pair, route: SolverRoute, k: int, o: Id)
    requires RouteStored(w, r, orders, pair, route)
    ensures HasStop(w, r, k, o) <==> 0 <= k < |route.stops| && route.stops[k].orderId == o
  {
    if 0 <= k < |route.stops| {
      assert MadeFrom(orders, w.routes[r].stops[k], route.stops[k]);
    }
  }

  lemma {:induction false} StoredServes(w: World, c: Context, ids: seq<Id>, result: SolverResult, i: nat, o: Id, p: int, d: int)
    requires Stored(w, c, ids, result.routes) && SettledOnce(result, o)
    requires i < |ids| && PickedThenDropped(result.routes[i].stops, o, p, d)
    ensures ServedAt(w, ids[i], p, d, o)
  {
    var routes := result.routes;
    assert OnRoute(routes, i, o);
    forall q, k | HasStop(w, q, k, o) ensures q == ids[i] && (k == p || k == d) {
      var j :| 0 <= j < |ids| && ids[j] == q;
      HasStopMeans(w, q, c.orders, c.pairs[routes[j].vehicleId], routes[j], k, o);
      assert OnRoute(routes, j, o);
    }
    var pair := c.pairs[routes[i].vehicleId];
    assert RouteStored(w, ids[i], c.orders, pair, routes[i]);
    HasStopMeans(w, ids[i], c.orders, pair, routes[i], p, o);
    HasStopMeans(w, ids[i], c.orders, pair, routes[i], d, o);
  }

  // ----- capacity over whole runs -----

  /** The orders of a route that are picked up and not yet delivered, by their stored status. */
  ghost function InTransit(w: World, r: Id): set<Id>
    requires r in w.routes
  {
    set k | 0 <= k < |w.routes[r].stops| && w.routes[r].stops[k].orderId in w.orders
            && w.orders[w.routes[r].stops[k].orderId].status in {PickedUp, Delivering} :: w.routes[r].stops[k].orderId
  }

  function StoredDemands(w: World): map<Id, int> {
    map o | o in w.orders :: w.orders[o].demand
  }

  /** Stop k of the route serves an order whose stored status says whether it is on board. */
  ghost predicate StatusTellsCargo(w: World, r: Id, stops: seq<SolverStop>, k: nat)
    requires r in w.routes && k < |stops|
  {
    var o := stops[k].orderId;
    && k < |w.routes[r].stops| && w.routes[r].stops[k].orderId == o && o in w.orders
    && (w.orders[o].status in {PickedUp, Delivering} <==> Aboard(stops, o, Frontier(w.routes[r].stops)))
  }

  /** The world after a run, and what it kept of route r. */
  ghost predicate Reached(threshold: nat, w: World, calls: seq<Call>, after: World, r: Id) {
    && after == Run(threshold, w, calls) && r in w.routes && r in after.routes
    && RouteExtends(w.routes[r], after.routes[r])
    && StoredDemands(after) == StoredDemands(w)
  }

  lemma {:induction false} Reach(threshold: nat, w: World, calls: seq<Call>, r: Id) returns (after: World)
    requires Fresh(w) && r in w.routes
    ensures Reached(threshold, w, calls, after, r)
  {
    FreshIsOk(w);
    HistoryIsKept(threshold, w, StartRanks(w), calls);
    after := Run(threshold, w, calls);
    forall o | o in w.orders ensures o in after.orders && after.orders[o].demand == w.orders[o].demand {
      assert OrderExtends(w.orders[o], after.orders[o]);
    }
  }

  lemma {:induction false} StatusTells(threshold: nat, w: World, c: Context, ids: seq<Id>, result: SolverResult, calls: seq<Call>, i: nat, k: nat, after: World)
    requires Stored(w, c, ids, result.routes) && Fresh(w) && i < |ids| && k < |result.routes[i].stops|
    requires StopFits(c.orders, result.routes[i].stops, k) && SettledOnce(result, result.routes[i].stops[k].orderId)
    requires Reached(threshold, w, calls, after, ids[i])
    ensures StatusTellsCargo(after, ids[i], result.routes[i].stops, k)
  {
    var stops, r := result.routes[i].stops, ids[i];
    var o := stops[k].orderId;
    assert MadeFrom(c.orders, w.routes[r].stops[k], stops[k]) by {
      assert RouteStored(w, r, c.orders, c.pairs[result.routes[i].vehicleId], result.routes[i]);
    }
    assert StopExtends(w.routes[r].stops[k], after.routes[r].stops[k]);
    var p, d :| PickedThenDropped(stops, o, p, d);
    StoredServes(w, c, ids, result, i, o, p, d);
    OrderStatusFollowsStops(threshold, w, calls, r, p, d, o);
    AboardAfter(stops, o, p, d, Frontier(after.routes[r].stops));
  }

  lemma {:induction false} InTransitIsAboard(w: World, r: Id, stops: seq<SolverStop>)
    requires r in w.routes && |w.routes[r].stops| == |stops|
    requires forall k :: 0 <= k < |stops| ==> StatusTellsCargo(w, r, stops, k)
    ensures InTransit(w, r) == AboardSet(stops, Frontier(w.routes[r].stops))
  {
    var aboard := AboardSet(stops, Frontier(w.routes[r].stops));
    forall o | o in aboard ensures o in InTransit(w, r) {
      var k :| 0 <= k < |stops| && stops[k].orderId == o;
      assert StatusTellsCargo(w, r, stops, k);
    }
    forall o | o in InTransit(w, r) ensures o in aboard {
      var k :| 0 <= k < |stops| && w.routes[r].stops[k].orderId == o;
      assert StatusTellsCargo(w, r, stops, k);
    }
  }

  lemma {:induction false} TransitOfStoredRoute(threshold: nat, w: World, c: Context, ids: seq<Id>, result: SolverResult, calls: seq<Call>, i: nat, after: World)
    requires Stored(w, c, ids, result.routes) && Routed(c.orders, c.pairs, result) && i < |ids|
    requires Fresh(w) && Reached(threshold, w, calls, after, ids[i])
    ensures InTransit(after, ids[i]) == AboardSet(result.routes[i].stops, Frontier(after.routes[ids[i]].stops))
    ensures after.routes[ids[i]].capacity == c.pairs[result.routes[i].vehicleId].capacity
    ensures |after.routes[ids[i]].stops| == |result.routes[i].stops|
  {
    var stops := result.routes[i].stops;
    assert RouteStored(w, ids[i], c.orders, c.pairs[result.routes[i].vehicleId], result.routes[i]);
    assert RouteFits(c.orders, c.pairs[result.routes[i].vehicleId], result.routes[i]);
    forall k | 0 <= k < |stops| ensures StatusTellsCargo(after, ids[i], stops, k) {
      assert StopFits(c.orders, stops, k);
      assert SettledOnce(result, stops[k].orderId);
      StatusTells(threshold, w, c, ids, result, calls, i, k, after);
    }
    InTransitIsAboard(after, ids[i], stops);
  }

  /** Capacity safety: once an accepted result is stored, in every state that any sequence of
      arrive, start and complete calls can reach, the orders in transit on a route together
      weigh what the checker computed for the completed prefix of the route, and never more than
      the capacity stored with the route. */
  lemma {:induction false} CapacityIsNeverExceeded(threshold: nat, facts: Facts, locations: seq<Id>, distances: Matrix, durations: Matrix,
                                result: SolverResult, roads: Roads, planId: Id, first: Id, w: World, calls: seq<Call>, i: nat)
    requires Certified(BuildSolverInput(facts, locations, distances, durations), result) && NoEmptyRoute(result.routes)
    requires RoutesBuildable(ContextOf(facts, roads, planId), result.routes, |result.routes|)
    requires var c := ContextOf(facts, roads, planId); Installed(w, c, NewRoutes(c, first, result.routes, |result.routes|))
    requires i < |result.routes|
    ensures var after, stops := Run(threshold, w, calls), result.routes[i].stops;
            var c := ContextOf(facts, roads, planId);
            var r := NewRoutes(c, first, result.routes, |result.routes|)[i].id;
            && r in after.routes && InTransit(after, r) <= StoredDemands(after).Keys
            && Frontier(after.routes[r].stops) <= |stops|
            && Total(StoredDemands(after), InTransit(after, r)) == Cargo(c.orders, stops, Frontier(after.routes[r].stops))
            && 0 <= Total(StoredDemands(after), InTransit(after, r)) <= after.routes[r].capacity
  {
    var c := ContextOf(facts, roads, planId);
    CertifiedIsRouted(facts, locations, distances, durations, result);
    InstalledIsStored(w, c, first, result);
    StoredPlanIsSafe(threshold, w, c, Ids(NewRoutes(c, first, result.routes, |result.routes|)), result, calls, i);
  }

  lemma {:induction false} StoredDemandsAre(w: World, c: Context, after: World)
    requires OrdersStored(w, c.orders) && StoredDemands(after) == StoredDemands(w)
    ensures StoredDemands(after) == Demands(c.orders)
  {
  }

  lemma {:induction false} StoredPlanIsSafe(threshold: nat, w: World, c: Context, ids: seq<Id>, result: SolverResult, calls: seq<Call>, i: nat)
    requires Stored(w, c, ids, result.routes) && Routed(c.orders, c.pairs, result) && i < |ids|
    ensures var after, stops := Run(threshold, w, calls), result.routes[i].stops;
            && ids[i] in after.routes && InTransit(after, ids[i]) <= StoredDemands(after).Keys
            && Frontier(after.routes[ids[i]].stops) <= |stops|
            && Total(StoredDemands(after), InTransit(after, ids[i])) == Cargo(c.orders, stops, Frontier(after.routes[ids[i]].stops))
            && 0 <= Total(StoredDemands(after), InTransit(after, ids[i])) <= after.routes[ids[i]].capacity
  {
    StoredIsFresh(w, c, ids, result.routes);
    assert RouteStored(w, ids[i], c.orders, c.pairs[result.routes[i].vehicleId], result.routes[i]);
    var after := Reach(threshold, w, calls, ids[i]);
    TransitOfStoredRoute(threshold, w, c, ids, result, calls, i, after);
    var f := Frontier(after.routes[ids[i]].stops);
    assert RouteFits(c.orders, c.pairs[result.routes[i].vehicleId], result.routes[i]);
    CargoIsTheOrdersAboard(c.orders, result.routes[i].stops, f);
    StoredDemandsAre(w, c, after);
  }
}
