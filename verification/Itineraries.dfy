/** What the checker accepts and reports, told in the rows of the input and the cells of its matrices
    alone. */
module Itineraries {
  import opened Ordering
  import opened Domain
  import opened Optimization
  import opened Checker
  import opened Feasibility

  // ----- one route -----

  /** A route with the cell of each place, the metres driven and the load, before the first stop and
      after each. */
  datatype Itinerary = Itinerary(cells: seq<nat>, metres: seq<int>, load: seq<int>)

  /** The row and column of the matrices that belong to the places of a route: first where the vehicle
      starts, then stop after stop. */
  ghost predicate Placed(input: SolverInput, v: SolverVehicle, stops: seq<SolverStop>, cells: seq<nat>) {
    && |cells| == |stops| + 1
    && (forall k :: 0 <= k < |cells| ==> cells[k] < |input.locations|)
    && input.locations[cells[0]] == v.start
    && forall k :: 0 <= k < |stops| ==> PlacedAt(input, stops, cells, k)
  }

  ghost predicate PlacedAt(input: SolverInput, stops: seq<SolverStop>, cells: seq<nat>, k: nat)
    requires k < |stops| && k + 1 < |cells|
  {
    cells[k + 1] < |input.locations| && input.locations[cells[k + 1]] == stops[k].locationId
  }

  /** Stop k is not reached before the vehicle can be there. */
  ghost predicate OnTime(input: SolverInput, v: SolverVehicle, stops: seq<SolverStop>, cells: seq<nat>, k: nat)
    requires input.MatricesFit() && Placed(input, v, stops, cells) && k < |stops|
  {
    (if k == 0 then v.availableFrom else stops[k - 1].departure) + input.durations[cells[k]][cells[k + 1]] <= stops[k].arrival
  }

  /** A running sum of the cells of the legs. */
  ghost predicate Metred(input: SolverInput, v: SolverVehicle, stops: seq<SolverStop>, cells: seq<nat>, metres: seq<int>)
    requires input.MatricesFit() && Placed(input, v, stops, cells)
  {
    && |metres| == |cells| && metres[0] == 0
    && forall k :: 0 <= k < |stops| ==> MetredAt(input, cells, metres, k)
  }

  ghost predicate MetredAt(input: SolverInput, cells: seq<nat>, metres: seq<int>, k: nat)
    requires input.MatricesFit() && k + 1 < |metres| && k + 1 < |cells|
    requires cells[k] < |input.locations| && cells[k + 1] < |input.locations|
  {
    metres[k + 1] == metres[k] + input.distances[cells[k]][cells[k + 1]]
  }

  ghost predicate Laden(v: SolverVehicle, stops: seq<SolverStop>, load: seq<int>) {
    && |load| == |stops| + 1 && load[0] == v.initialLoad
    && forall k :: 0 <= k < |stops| ==> LadenAt(v, stops, load, k)
  }

  ghost predicate LadenAt(v: SolverVehicle, stops: seq<SolverStop>, load: seq<int>, k: nat)
    requires k < |stops| && k + 1 < |load|
  {
    load[k + 1] == load[k] + stops[k].loadChange && 0 <= load[k + 1] <= v.capacity
  }

  ghost predicate Driven(input: SolverInput, v: SolverVehicle, route: SolverRoute, it: Itinerary)
    requires input.MatricesFit()
  {
    var stops := route.stops;
    && Placed(input, v, stops, it.cells)
    && (forall k :: 0 <= k < |stops| ==> OnTime(input, v, stops, it.cells, k))
    && Metred(input, v, stops, it.cells, it.metres)
    && Laden(v, stops, it.load)
    && (stops != [] ==>
         && route.distance == it.metres[|stops|]
         && route.duration == stops[|stops| - 1].departure - v.availableFrom
         && stops[|stops| - 1].departure <= v.availableUntil)
  }

  /** Stop k of a route does for its order what a stop of its kind is for. */
  ghost predicate Does(order: SolverOrder, stop: SolverStop, k: nat) {
    && stop.orderId == order.orderId && stop.sequenceNo == k + 1
    && stop.departure == stop.arrival + stop.service
    && match stop.kind
       case Pickup =>
         && order.pickup == Some(stop.locationId) && stop.service == order.pickupService
         && stop.loadChange == order.demand && order.ready <= stop.arrival
       case Handover =>
         && order.handover == Some(stop.locationId) && stop.service == order.handoverService
         && stop.loadChange == order.demand && order.ready <= stop.arrival
       case Delivery =>
         && stop.locationId == order.delivery && stop.service == order.deliveryService
         && stop.loadChange == -order.demand && order.windowStart <= stop.arrival <= order.windowEnd
  }

  // ----- the whole result -----

  ghost predicate Stands(routes: seq<SolverRoute>, i: int, k: int, o: Id) {
    0 <= i < |routes| && 0 <= k < |routes[i].stops| && routes[i].stops[k].orderId == o
  }

  /** Route i has the only stops of the order: its delivery on the vehicle that has the goods, or its
      origin and then its delivery. */
  ghost predicate Transports(routes: seq<SolverRoute>, order: SolverOrder, i: int, p: int, d: int) {
    && Stands(routes, i, p, order.orderId) && Stands(routes, i, d, order.orderId)
    && (forall r, k :: Stands(routes, r, k, order.orderId) ==> r == i && (k == p || k == d))
    && routes[i].stops[d].kind == Delivery
    && match order.requiredVehicle
       case Some(v) => p == d && routes[i].vehicleId == v
       case None => p < d && routes[i].stops[p].kind != Delivery
  }

  /** Transported and not reported as unassigned, or reported once and visited nowhere. */
  ghost predicate Settles(result: SolverResult, order: SolverOrder) {
    || ((exists i, p, d :: Transports(result.routes, order, i, p, d)) && forall j :: !ListedAt(result.unassigned, j, order.orderId))
    || (&& (forall i, k :: !Stands(result.routes, i, k, order.orderId))
        && exists j :: ListedAt(result.unassigned, j, order.orderId)
             && forall l :: ListedAt(result.unassigned, l, order.orderId) ==> l == j)
  }

  ghost predicate RunningTotal(terms: seq<int>, sums: seq<int>, total: int) {
    && |sums| == |terms| + 1 && sums[0] == 0 && sums[|terms|] == total
    && forall k :: 0 <= k < |terms| ==> AddedAt(terms, sums, k)
  }

  ghost predicate AddedAt(terms: seq<int>, sums: seq<int>, k: nat)
    requires k < |terms| && k + 1 < |sums|
  {
    sums[k + 1] == sums[k] + terms[k]
  }

  ghost predicate Drives(input: SolverInput, route: SolverRoute, v: SolverVehicle, it: Itinerary)
    requires input.MatricesFit()
  {
    v in input.vehicles && v.vehicleId == route.vehicleId && Driven(input, v, route, it)
  }

  ghost predicate DoneFor(input: SolverInput, stop: SolverStop, k: nat) {
    exists order :: order in input.orders && Does(order, stop, k)
  }

  /** The rows of the routes, as terms of the totals. */
  function DistancesOf(routes: seq<SolverRoute>): seq<int> {
    seq(|routes|, i requires 0 <= i < |routes| => routes[i].distance)
  }

  function DurationsOf(routes: seq<SolverRoute>): seq<int> {
    seq(|routes|, i requires 0 <= i < |routes| => routes[i].duration)
  }

  ghost predicate IsOrder(input: SolverInput, o: Id) {
    exists order :: order in input.orders && order.orderId == o
  }

  ghost predicate StaysOn(routes: seq<SolverRoute>, f: FrozenTask) {
    exists i :: 0 <= i < |routes| && routes[i].vehicleId == f.vehicleId && f.stop in routes[i].stops
  }

  ghost predicate AllDriven(input: SolverInput, routes: seq<SolverRoute>)
    requires input.MatricesFit()
  {
    forall i :: 0 <= i < |routes| ==> CanBeDriven(input, routes[i])
  }

  ghost predicate CanBeDriven(input: SolverInput, route: SolverRoute)
    requires input.MatricesFit()
  {
    exists v, it :: Drives(input, route, v, it)
  }

  ghost predicate AllDone(input: SolverInput, routes: seq<SolverRoute>) {
    forall i :: 0 <= i < |routes| ==> StopsDone(input, routes[i].stops)
  }

  ghost predicate StopsDone(input: SolverInput, stops: seq<SolverStop>) {
    forall k :: 0 <= k < |stops| ==> DoneFor(input, stops[k], k)
  }

  ghost predicate AllSettle(input: SolverInput, result: SolverResult) {
    forall order :: order in input.orders ==> Settles(result, order)
  }

  /** Every stop is of some order, every order is settled, every route can be driven, and nothing else
      is claimed. */
  ghost predicate IsRouting(input: SolverInput, result: SolverResult)
    requires input.MatricesFit()
  {
    var routes := result.routes;
    && AllDriven(input, routes) && AllDone(input, routes) && AllSettle(input, result)
    && (forall i, j :: 0 <= i < j < |routes| ==> routes[i].vehicleId != routes[j].vehicleId)
    && (forall j :: 0 <= j < |result.unassigned| ==> IsOrder(input, result.unassigned[j].orderId))
    && (forall f :: f in input.frozen ==> StaysOn(routes, f))
    && (exists sums :: RunningTotal(DistancesOf(routes), sums, result.totalDistance))
    && (exists sums :: RunningTotal(DurationsOf(routes), sums, result.totalDuration))
  }

  // ----- cells and sums are what the definitions compute -----

  /** Distinct places have one cell each. */
  lemma {:induction false} CellIs(input: SolverInput, cell: nat)
    requires Distinct(input.locations) && cell < |input.locations|
    ensures input.locations[cell] in input.locations && IndexOf(input.locations, input.locations[cell]) == cell
  {
    var i := IndexOf(input.locations, input.locations[cell]);
    assert input.locations[i] == input.locations[cell];
  }

  lemma {:induction false} PlacedIs(input: SolverInput, v: SolverVehicle, stops: seq<SolverStop>, cells: seq<nat>, k: nat)
    requires Distinct(input.locations) && Placed(input, v, stops, cells) && k <= |stops|
    ensures PreviousLocation(v, stops, k) in input.locations && cells[k] == IndexOf(input.locations, PreviousLocation(v, stops, k))
  {
    CellIs(input, cells[k]);
    if 0 < k { assert PlacedAt(input, stops, cells, k - 1); }
  }

  lemma {:induction false} PlacedIsLocated(input: SolverInput, v: SolverVehicle, stops: seq<SolverStop>, cells: seq<nat>)
    requires Placed(input, v, stops, cells)
    ensures v.start in input.locations && Located(input, stops)
  {
    forall k | 0 <= k < |stops| ensures stops[k].locationId in input.locations {
      assert PlacedAt(input, stops, cells, k);
    }
  }

  ghost function CellsOf(input: SolverInput, v: SolverVehicle, stops: seq<SolverStop>, n: nat): (cells: seq<nat>)
    requires v.start in input.locations && Located(input, stops) && n <= |stops|
    ensures |cells| == n + 1
    ensures forall k :: 0 <= k <= n ==> PreviousLocation(v, stops, k) in input.locations && cells[k] == IndexOf(input.locations, PreviousLocation(v, stops, k))
  {
    if n == 0 then [IndexOf(input.locations, v.start)]
    else CellsOf(input, v, stops, n - 1) + [IndexOf(input.locations, stops[n - 1].locationId)]
  }

  lemma {:induction false} CellsArePlaced(input: SolverInput, v: SolverVehicle, stops: seq<SolverStop>)
    requires v.start in input.locations && Located(input, stops)
    ensures Placed(input, v, stops, CellsOf(input, v, stops, |stops|))
  {
    var cells := CellsOf(input, v, stops, |stops|);
    forall k | 0 <= k < |stops| ensures PlacedAt(input, stops, cells, k) {
      assert PreviousLocation(v, stops, k + 1) == stops[k].locationId;
    }
  }

  /** A leg is on time in the cells exactly when it is reachable. */
  lemma {:induction false} OnTimeIff(input: SolverInput, v: SolverVehicle, stops: seq<SolverStop>, cells: seq<nat>, k: nat)
    requires input.MatricesFit() && Distinct(input.locations) && Placed(input, v, stops, cells) && k < |stops|
    ensures v.start in input.locations && Located(input, stops)
    ensures OnTime(input, v, stops, cells, k) <==> !Unreachable(input, v, stops, k)
  {
    PlacedIsLocated(input, v, stops, cells);
    PlacedIs(input, v, stops, cells, k);
    PlacedIs(input, v, stops, cells, k + 1);
  }

  lemma {:induction false} MetresAre(input: SolverInput, v: SolverVehicle, stops: seq<SolverStop>, cells: seq<nat>, metres: seq<int>, n: nat)
    requires input.MatricesFit() && Distinct(input.locations) && Placed(input, v, stops, cells) && n <= |stops|
    requires v.start in input.locations && Located(input, stops)
    requires Metred(input, v, stops, cells, metres)
    ensures metres[n] == RouteDistance(input, v, stops, n)
  {
    if 0 < n {
      MetresAre(input, v, stops, cells, metres, n - 1);
      PlacedIs(input, v, stops, cells, n - 1);
      PlacedIs(input, v, stops, cells, n);
      assert MetredAt(input, cells, metres, n - 1);
    }
  }

  lemma {:induction false} MetresExist(input: SolverInput, v: SolverVehicle, stops: seq<SolverStop>, cells: seq<nat>) returns (metres: seq<int>)
    requires input.MatricesFit() && Placed(input, v, stops, cells)
    ensures Metred(input, v, stops, cells, metres)
  {
    metres := [0];
    for k := 0 to |stops|
      invariant |metres| == k + 1 && metres[0] == 0
      invariant forall j :: 0 <= j < k ==> MetredAt(input, cells, metres, j)
    {
      assert PlacedAt(input, stops, cells, k);
      ghost var before := metres;
      metres := metres + [metres[k] + input.distances[cells[k]][cells[k + 1]]];
      forall j | 0 <= j <= k ensures MetredAt(input, cells, metres, j) {
        if j < k { assert MetredAt(input, cells, before, j); }
      }
    }
  }

  lemma {:induction false} LoadsAre(orders: Orders, v: SolverVehicle, stops: seq<SolverStop>, load: seq<int>, n: nat)
    requires Laden(v, stops, load) && n <= |stops| && forall k :: 0 <= k < |stops| ==> Honest(orders, stops, k)
    ensures load[n] == Load(orders, v.initialLoad, stops, n)
  {
    if 0 < n {
      LoadsAre(orders, v, stops, load, n - 1);
      assert Honest(orders, stops, n - 1);
      assert LadenAt(v, stops, load, n - 1);
    }
  }

  lemma {:induction false} LoadsExist(orders: Orders, v: SolverVehicle, stops: seq<SolverStop>) returns (load: seq<int>)
    requires forall k :: 0 <= k < |stops| ==> Honest(orders, stops, k)
    requires forall n :: 0 <= n <= |stops| ==> 0 <= Load(orders, v.initialLoad, stops, n) <= v.capacity
    ensures Laden(v, stops, load)
  {
    load := [v.initialLoad];
    for k := 0 to |stops|
      invariant |load| == k + 1 && load[0] == v.initialLoad && load[k] == Load(orders, v.initialLoad, stops, k)
      invariant forall j :: 0 <= j < k ==> LadenAt(v, stops, load, j)
    {
      assert Honest(orders, stops, k);
      ghost var before := load;
      load := load + [load[k] + stops[k].loadChange];
      assert 0 <= Load(orders, v.initialLoad, stops, k + 1) <= v.capacity;
      forall j | 0 <= j <= k ensures LadenAt(v, stops, load, j) {
        if j < k { assert LadenAt(v, stops, before, j); }
      }
    }
  }

  lemma {:induction false} TotalsExist(terms: seq<int>) returns (sums: seq<int>)
    ensures |sums| == |terms| + 1 && RunningTotal(terms, sums, sums[|terms|])
  {
    sums := [0];
    for k := 0 to |terms|
      invariant |sums| == k + 1 && sums[0] == 0 && forall j :: 0 <= j < k ==> AddedAt(terms, sums, j)
    {
      ghost var before := sums;
      sums := sums + [sums[k] + terms[k]];
      forall j | 0 <= j <= k ensures AddedAt(terms, sums, j) {
        if j < k { assert AddedAt(terms, before, j); }
      }
    }
  }

  lemma {:induction false} TotalsAre(routes: seq<SolverRoute>, metres: seq<int>, seconds: seq<int>, n: nat)
    requires n <= |routes| && |metres| == |seconds| == |routes| + 1
    requires RunningTotal(DistancesOf(routes), metres, metres[|routes|]) && RunningTotal(DurationsOf(routes), seconds, seconds[|routes|])
    ensures metres[n] == TotalDistance(routes, n) && seconds[n] == TotalDuration(routes, n)
  {
    if 0 < n {
      TotalsAre(routes, metres, seconds, n - 1);
      assert AddedAt(DistancesOf(routes), metres, n - 1) && AddedAt(DurationsOf(routes), seconds, n - 1);
    }
  }

  lemma {:induction false} TotalsMatch(result: SolverResult)
    ensures (exists sums :: RunningTotal(DistancesOf(result.routes), sums, result.totalDistance))
            <==> result.totalDistance == TotalDistance(result.routes, |result.routes|)
    ensures (exists sums :: RunningTotal(DurationsOf(result.routes), sums, result.totalDuration))
            <==> result.totalDuration == TotalDuration(result.routes, |result.routes|)
  {
    var n := |result.routes|;
    var metres := TotalsExist(DistancesOf(result.routes));
    var seconds := TotalsExist(DurationsOf(result.routes));
    TotalsAre(result.routes, metres, seconds, n);
    if sums :| RunningTotal(DistancesOf(result.routes), sums, result.totalDistance) { TotalsAre(result.routes, sums, seconds, n); }
    if sums :| RunningTotal(DurationsOf(result.routes), sums, result.totalDuration) { TotalsAre(result.routes, metres, sums, n); }
  }

  // ----- one route -----

  lemma {:induction false} OrderIsListed(input: SolverInput, order: SolverOrder)
    requires input.Valid()
    ensures order in input.orders <==> order.orderId in OrdersById(input.orders) && OrdersById(input.orders)[order.orderId] == order
  {
    OrdersByIdIs(input.orders);
    if order in input.orders {
      var i :| 0 <= i < |input.orders| && input.orders[i] == order;
    }
  }

  lemma {:induction false} VehicleIsListed(input: SolverInput, v: SolverVehicle)
    requires input.Valid()
    ensures v in input.vehicles <==> v.vehicleId in VehiclesById(input.vehicles) && VehiclesById(input.vehicles)[v.vehicleId] == v
  {
    VehiclesByIdIs(input.vehicles);
    if v in input.vehicles {
      var i :| 0 <= i < |input.vehicles| && input.vehicles[i] == v;
    }
  }

  lemma {:induction false} DoesIsHonest(input: SolverInput, stops: seq<SolverStop>, k: nat)
    requires input.Valid() && k < |stops| && DoneFor(input, stops[k], k)
    ensures Honest(OrdersById(input.orders), stops, k)
  {
    var order :| order in input.orders && Does(order, stops[k], k);
    OrderIsListed(input, order);
  }

  lemma {:induction false} DrivenIsReachable(input: SolverInput, v: SolverVehicle, route: SolverRoute, it: Itinerary)
    requires input.Valid() && v.Valid() && Driven(input, v, route, it)
    requires StopsDone(input, route.stops)
    ensures v.start in input.locations && Located(input, route.stops)
    ensures forall k :: 0 <= k < |route.stops| ==> Honest(OrdersById(input.orders), route.stops, k)
    ensures forall k :: 0 <= k < |route.stops| ==> Reachable(input, v, route.stops, k)
    ensures forall n :: 0 <= n <= |route.stops| ==> 0 <= Load(OrdersById(input.orders), v.initialLoad, route.stops, n) <= v.capacity
    ensures route.stops != [] ==> route.distance == RouteDistance(input, v, route.stops, |route.stops|)
  {
    var stops := route.stops;
    PlacedIsLocated(input, v, stops, it.cells);
    forall k | 0 <= k < |stops| ensures Honest(OrdersById(input.orders), stops, k) && Reachable(input, v, stops, k) {
      DoesIsHonest(input, stops, k);
      OnTimeIff(input, v, stops, it.cells, k);
      PlacedIs(input, v, stops, it.cells, k);
    }
    forall n | 0 <= n <= |stops| ensures 0 <= Load(OrdersById(input.orders), v.initialLoad, stops, n) <= v.capacity {
      LoadsAre(OrdersById(input.orders), v, stops, it.load, n);
      if 0 < n { assert LadenAt(v, stops, it.load, n - 1); }
    }
    MetresAre(input, v, stops, it.cells, it.metres, |stops|);
  }

  lemma {:induction false} FeasibleIsDriven(input: SolverInput, orders: Orders, v: SolverVehicle, route: SolverRoute) returns (it: Itinerary)
    requires input.Valid() && v.start in input.locations && FeasibleRoute(input, orders, v, route)
    ensures Driven(input, v, route, it)
  {
    var stops := route.stops;
    assert Located(input, stops);
    CellsArePlaced(input, v, stops);
    var cells := CellsOf(input, v, stops, |stops|);
    var metres := MetresExist(input, v, stops, cells);
    var load := LoadsExist(orders, v, stops);
    it := Itinerary(cells, metres, load);
    forall k | 0 <= k < |stops| ensures OnTime(input, v, stops, cells, k) {
      OnTimeIff(input, v, stops, cells, k);
      assert Reachable(input, v, stops, k);
    }
    MetresAre(input, v, stops, cells, metres, |stops|);
  }

  // ----- the orders -----

  lemma {:induction false} StandsIsOnRoute(routes: seq<SolverRoute>, i: int, o: Id)
    ensures OnRoute(routes, i, o) <==> exists k :: Stands(routes, i, k, o)
  {
    if OnRoute(routes, i, o) {
      var k :| 0 <= k < |routes[i].stops| && routes[i].stops[k].orderId == o;
      assert Stands(routes, i, k, o);
    }
  }

  /** An order that is carried on its only route is transported there. */
  lemma {:induction false} CarriedIsTransported(result: SolverResult, order: SolverOrder, v: SolverVehicle, i: nat)
    requires order.Valid() && i < |result.routes| && v.vehicleId == result.routes[i].vehicleId
    requires Carried(order, v, result.routes[i].stops)
    requires forall j :: OnRoute(result.routes, j, order.orderId) ==> j == i
    ensures exists p, d :: Transports(result.routes, order, i, p, d)
  {
    var routes, stops, o := result.routes, result.routes[i].stops, order.orderId;
    forall r, k | Stands(routes, r, k, o) ensures r == i { StandsIsOnRoute(routes, r, o); }
    if order.DeliveryOnly() {
      var d :| OnlyAt(stops, o, d) && IsStopOf(stops[d], order, Delivery, order.delivery);
      assert Transports(routes, order, i, d, d);
    } else {
      var p, d :| OnlyAtBoth(stops, o, p, d) && IsStopOf(stops[p], order, order.OriginKind(), order.Origin().value)
        && IsStopOf(stops[d], order, Delivery, order.delivery);
      assert Transports(routes, order, i, p, d);
    }
  }

  lemma {:induction false} TransportedIsCarried(input: SolverInput, result: SolverResult, order: SolverOrder, v: SolverVehicle, i: int, p: int, d: int)
    requires input.Valid() && order in input.orders && order.Valid() && Transports(result.routes, order, i, p, d)
    requires v.vehicleId == result.routes[i].vehicleId
    requires StopsDone(input, result.routes[i].stops)
    ensures Carried(order, v, result.routes[i].stops)
    ensures forall j :: OnRoute(result.routes, j, order.orderId) <==> j == i
  {
    var routes, stops, o := result.routes, result.routes[i].stops, order.orderId;
    forall j ensures OnRoute(routes, j, o) <==> j == i { StandsIsOnRoute(routes, j, o); }
    forall k | 0 <= k < |stops| && stops[k].orderId == o ensures Does(order, stops[k], k) && (k == p || k == d) {
      assert DoneFor(input, stops[k], k);
      var other :| other in input.orders && Does(other, stops[k], k);
      OrderIsListed(input, order);
      OrderIsListed(input, other);
      assert Stands(routes, i, k, o);
    }
    if order.requiredVehicle.Some? {
      assert OnlyAt(stops, o, d) && IsStopOf(stops[d], order, Delivery, order.delivery);
    } else {
      assert OnlyAtBoth(stops, o, p, d) && IsStopOf(stops[p], order, order.OriginKind(), order.Origin().value)
        && IsStopOf(stops[d], order, Delivery, order.delivery);
    }
  }

  lemma {:induction false} SettlesIsSettledOnce(input: SolverInput, result: SolverResult, order: SolverOrder)
    requires input.Valid() && order in input.orders && order.Valid() && Settles(result, order)
    requires AllDone(input, result.routes)
    ensures SettledOnce(result, order.orderId)
  {
    var o := order.orderId;
    if i, p, d :| Transports(result.routes, order, i, p, d) {
      var v := SolverVehicle(result.routes[i].vehicleId, 0, 0, 0, 0, 0);
      TransportedIsCarried(input, result, order, v, i, p, d);
      assert OnRoute(result.routes, i, o);
    } else {
      forall i ensures !OnRoute(result.routes, i, o) { StandsIsOnRoute(result.routes, i, o); }
    }
  }

  lemma {:induction false} SettledOnceSettles(result: SolverResult, order: SolverOrder)
    requires SettledOnce(result, order.orderId)
    requires forall i :: OnRoute(result.routes, i, order.orderId) && (forall j :: OnRoute(result.routes, j, order.orderId) ==> j == i)
               ==> exists p, d :: Transports(result.routes, order, i, p, d)
    ensures Settles(result, order)
  {
    var o := order.orderId;
    if i :| OnRoute(result.routes, i, o) {
      assert forall j :: OnRoute(result.routes, j, o) ==> j == i;
    } else {
      forall i, k ensures !Stands(result.routes, i, k, o) { StandsIsOnRoute(result.routes, i, o); }
    }
  }

  // ----- acceptance -----

  lemma {:induction false} RoutedOrderIsCarried(input: SolverInput, result: SolverResult, i: nat, v: SolverVehicle, o: Id)
    requires input.Valid() && AllDone(input, result.routes) && AllSettle(input, result) && i < |result.routes|
    requires v.vehicleId == result.routes[i].vehicleId && o in Served(OrdersById(input.orders), result.routes[i].stops)
    ensures Carried(OrdersById(input.orders)[o], v, result.routes[i].stops)
  {
    OrdersByIdIs(input.orders);
    var order := OrdersById(input.orders)[o];
    var k :| 0 <= k < |result.routes[i].stops| && result.routes[i].stops[k].orderId == o;
    assert Stands(result.routes, i, k, o);
    assert Settles(result, order);
    var r, p, d :| Transports(result.routes, order, r, p, d);
    TransportedIsCarried(input, result, order, v, r, p, d);
  }

  lemma {:induction false} RoutingHasFeasibleRoutes(input: SolverInput, result: SolverResult, i: nat)
    requires input.Valid() && AllDriven(input, result.routes) && AllDone(input, result.routes) && AllSettle(input, result)
    requires StartsInMatrix(input, VehiclesById(input.vehicles)) && i < |result.routes|
    ensures var vehicles := VehiclesById(input.vehicles);
            && result.routes[i].vehicleId in vehicles
            && FeasibleRoute(input, OrdersById(input.orders), vehicles[result.routes[i].vehicleId], result.routes[i])
  {
    var route := result.routes[i];
    assert CanBeDriven(input, route);
    var v, it :| Drives(input, route, v, it);
    VehicleIsListed(input, v);
    var j :| 0 <= j < |input.vehicles| && input.vehicles[j] == v;
    assert v.Valid();
    DrivenIsReachable(input, v, route, it);
    forall o | o in Served(OrdersById(input.orders), route.stops) ensures Carried(OrdersById(input.orders)[o], v, route.stops) {
      RoutedOrderIsCarried(input, result, i, v, o);
    }
  }

  lemma {:induction false} RoutingSettlesOnce(input: SolverInput, result: SolverResult, o: Id)
    requires input.Valid() && AllDone(input, result.routes) && AllSettle(input, result) && o in OrdersById(input.orders)
    ensures SettledOnce(result, o)
  {
    OrdersByIdIs(input.orders);
    SettlesIsSettledOnce(input, result, OrdersById(input.orders)[o]);
  }

  /** What acceptance and the routing say in the same words. */
  lemma {:induction false} SameEnds(input: SolverInput, result: SolverResult)
    requires input.Valid()
    ensures (forall j :: 0 <= j < |result.unassigned| ==> result.unassigned[j].orderId in OrdersById(input.orders))
            <==> forall j :: 0 <= j < |result.unassigned| ==> IsOrder(input, result.unassigned[j].orderId)
    ensures (forall f :: f in input.frozen ==> Kept(f, result.routes))
            <==> forall f :: f in input.frozen ==> StaysOn(result.routes, f)
  {
    forall o ensures o in OrdersById(input.orders) <==> IsOrder(input, o) {
      IsKnown(input, o);
    }
  }

  lemma {:induction false} IsKnown(input: SolverInput, o: Id)
    requires input.Valid()
    ensures o in OrdersById(input.orders) <==> IsOrder(input, o)
  {
    OrdersByIdIs(input.orders);
    if o in OrdersById(input.orders) {
      assert OrdersById(input.orders)[o] in input.orders;
    }
    if order :| order in input.orders && order.orderId == o {
      OrderIsListed(input, order);
    }
  }

  lemma {:induction false} RoutingIsFeasible(input: SolverInput, result: SolverResult)
    requires input.Valid() && StartsInMatrix(input, VehiclesById(input.vehicles)) && IsRouting(input, result)
    ensures FeasibleRouting(input, result)
  {
    forall i | 0 <= i < |result.routes|
      ensures result.routes[i].vehicleId in VehiclesById(input.vehicles)
      ensures FeasibleRoute(input, OrdersById(input.orders), VehiclesById(input.vehicles)[result.routes[i].vehicleId], result.routes[i])
    {
      RoutingHasFeasibleRoutes(input, result, i);
    }
    forall o | o in OrdersById(input.orders) ensures SettledOnce(result, o) {
      RoutingSettlesOnce(input, result, o);
    }
    SameEnds(input, result);
    TotalsMatch(result);
  }

  lemma {:induction false} FeasibleStopIsDone(input: SolverInput, v: SolverVehicle, route: SolverRoute, k: nat)
    requires input.Valid() && v.start in input.locations && FeasibleRoute(input, OrdersById(input.orders), v, route) && k < |route.stops|
    ensures DoneFor(input, route.stops[k], k)
  {
    var orders, stops := OrdersById(input.orders), route.stops;
    assert Honest(orders, stops, k);
    OrdersByIdIs(input.orders);
    var order := orders[stops[k].orderId];
    assert order.orderId in Served(orders, stops);
    assert Carried(order, v, stops);
    assert Does(order, stops[k], k);
  }

  lemma {:induction false} FeasibleRouteIsDriven(input: SolverInput, result: SolverResult, i: nat)
    requires input.Valid() && StartsInMatrix(input, VehiclesById(input.vehicles)) && FeasibleRouting(input, result) && i < |result.routes|
    ensures CanBeDriven(input, result.routes[i])
    ensures StopsDone(input, result.routes[i].stops)
  {
    var route := result.routes[i];
    VehiclesByIdIs(input.vehicles);
    var v := VehiclesById(input.vehicles)[route.vehicleId];
    var it := FeasibleIsDriven(input, OrdersById(input.orders), v, route);
    assert Drives(input, route, v, it);
    forall k | 0 <= k < |route.stops| ensures DoneFor(input, route.stops[k], k) {
      FeasibleStopIsDone(input, v, route, k);
    }
  }

  lemma {:induction false} FeasibleRoutesAreDriven(input: SolverInput, result: SolverResult)
    requires input.Valid() && StartsInMatrix(input, VehiclesById(input.vehicles)) && FeasibleRouting(input, result)
    ensures AllDriven(input, result.routes) && AllDone(input, result.routes)
  {
    forall i | 0 <= i < |result.routes|
      ensures CanBeDriven(input, result.routes[i])
      ensures StopsDone(input, result.routes[i].stops)
    {
      FeasibleRouteIsDriven(input, result, i);
    }
  }

  lemma {:induction false} FeasibleOrdersSettle(input: SolverInput, result: SolverResult)
    requires input.Valid() && StartsInMatrix(input, VehiclesById(input.vehicles)) && FeasibleRouting(input, result)
    ensures AllSettle(input, result)
  {
    forall order | order in input.orders ensures Settles(result, order) {
      FeasibleOrderSettles(input, result, order);
    }
  }

  lemma {:induction false} FeasibleIsRouting(input: SolverInput, result: SolverResult)
    requires input.Valid() && StartsInMatrix(input, VehiclesById(input.vehicles)) && FeasibleRouting(input, result)
    ensures IsRouting(input, result)
  {
    FeasibleRoutesAreDriven(input, result);
    FeasibleOrdersSettle(input, result);
    SameEnds(input, result);
    TotalsMatch(result);
  }

  lemma {:induction false} FeasibleOrderSettles(input: SolverInput, result: SolverResult, order: SolverOrder)
    requires input.Valid() && StartsInMatrix(input, VehiclesById(input.vehicles)) && FeasibleRouting(input, result) && order in input.orders
    ensures Settles(result, order)
  {
    var o := order.orderId;
    OrderIsListed(input, order);
    VehiclesByIdIs(input.vehicles);
    assert SettledOnce(result, o);
    forall i | OnRoute(result.routes, i, o) && (forall j :: OnRoute(result.routes, j, o) ==> j == i)
      ensures exists p, d :: Transports(result.routes, order, i, p, d)
    {
      OnRouteIsServed(OrdersById(input.orders), result.routes, i, o);
      CarriedIsTransported(result, order, VehiclesById(input.vehicles)[result.routes[i].vehicleId], i);
    }
    SettledOnceSettles(result, order);
  }

  /** The checker finds nothing if and only if the result is a routing in the rows and cells of the input. */
  lemma {:induction false} AcceptedIffRouting(input: SolverInput, result: SolverResult)
    requires input.Valid() && result.status == Feasible
    ensures StartsInMatrix(input, VehiclesById(input.vehicles))
    ensures Accepted(input, result) <==> IsRouting(input, result)
  {
    AcceptedIffFeasible(input, result);
    if Accepted(input, result) { FeasibleIsRouting(input, result); }
    if IsRouting(input, result) { RoutingIsFeasible(input, result); }
  }

  /** The place before stop k of a route and the time it can be left. */
  ghost predicate ComesFrom(v: SolverVehicle, stops: seq<SolverStop>, k: nat, place: Id, since: int)
    requires k < |stops|
  {
    if k == 0 then place == v.start && since == v.availableFrom else place == stops[k - 1].locationId && since == stops[k - 1].departure
  }

  /** A leg of a route that can be driven is on time in the cell of its two places. */
  lemma {:induction false} DrivenLeg(input: SolverInput, v: SolverVehicle, route: SolverRoute, it: Itinerary, k: nat, a: nat, b: nat, since: int)
    requires input.MatricesFit() && Distinct(input.locations) && Driven(input, v, route, it)
    requires k < |route.stops| && a < |input.locations| && b < |input.locations|
    requires ComesFrom(v, route.stops, k, input.locations[a], since) && input.locations[b] == route.stops[k].locationId
    ensures since + input.durations[a][b] <= route.stops[k].arrival
  {
    assert OnTime(input, v, route.stops, it.cells, k);
    PlacedIs(input, v, route.stops, it.cells, k);
    PlacedIs(input, v, route.stops, it.cells, k + 1);
    CellIs(input, a);
    CellIs(input, b);
  }

  /** The vehicle of a route that can be driven is the one with its id. */
  lemma {:induction false} DrivenByItsVehicle(input: SolverInput, route: SolverRoute, v: SolverVehicle) returns (it: Itinerary)
    requires input.Valid() && CanBeDriven(input, route) && v in input.vehicles && v.vehicleId == route.vehicleId
    ensures Driven(input, v, route, it)
  {
    var w;
    w, it :| Drives(input, route, w, it);
    VehicleIsListed(input, v);
    VehicleIsListed(input, w);
  }

  /** On every leg of an accepted result, from the place in row a to the place in column b, there is time for
      the seconds in that cell. */
  lemma {:induction false} AcceptedLeg(input: SolverInput, result: SolverResult, v: SolverVehicle, i: nat, k: nat, a: nat, b: nat, since: int)
    requires input.Valid() && result.status == Feasible && StartsInMatrix(input, VehiclesById(input.vehicles)) && Accepted(input, result)
    requires i < |result.routes| && k < |result.routes[i].stops| && a < |input.locations| && b < |input.locations|
    requires v in input.vehicles && v.vehicleId == result.routes[i].vehicleId
    requires ComesFrom(v, result.routes[i].stops, k, input.locations[a], since) && input.locations[b] == result.routes[i].stops[k].locationId
    ensures since + input.durations[a][b] <= result.routes[i].stops[k].arrival
  {
    AcceptedIffRouting(input, result);
    assert CanBeDriven(input, result.routes[i]);
    var it := DrivenByItsVehicle(input, result.routes[i], v);
    DrivenLeg(input, v, result.routes[i], it, k, a, b, since);
  }
}
