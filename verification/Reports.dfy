/** When the checker reports which code, told in the rows of the input and of the result alone. */
module Reports {
  import opened Ordering
  import opened Domain
  import opened Optimization
  import opened Checker
  import opened Feasibility
  import opened Itineraries

  // ----- what the codes say about one route -----

  ghost predicate IsVehicleOf(input: SolverInput, v: SolverVehicle, route: SolverRoute) {
    v in input.vehicles && v.vehicleId == route.vehicleId
  }

  ghost predicate IsOrderOf(input: SolverInput, order: SolverOrder, stops: seq<SolverStop>, k: int) {
    0 <= k < |stops| && order in input.orders && order.orderId == stops[k].orderId
  }

  predicate ServesWrongly(order: SolverOrder, stop: SolverStop) {
    match stop.kind
    case Pickup => stop.service != order.pickupService || stop.departure != stop.arrival + order.pickupService
    case Handover => stop.service != order.handoverService || stop.departure != stop.arrival + order.handoverService
    case Delivery => stop.service != order.deliveryService || stop.departure != stop.arrival + order.deliveryService
  }

  predicate LoadsWrongly(order: SolverOrder, stop: SolverStop) {
    match stop.kind
    case Pickup => stop.loadChange != order.demand
    case Handover => stop.loadChange != order.demand
    case Delivery => stop.loadChange != -order.demand
  }

  /** The reported load before the first stop and after each, over the stops of known orders. */
  ghost predicate Counted(input: SolverInput, v: SolverVehicle, stops: seq<SolverStop>, load: seq<int>) {
    |load| == |stops| + 1 && load[0] == v.initialLoad && forall k :: 0 <= k < |stops| ==> CountedAt(input, stops, load, k)
  }

  ghost predicate CountedAt(input: SolverInput, stops: seq<SolverStop>, load: seq<int>, k: nat)
    requires k < |stops| && k + 1 < |load|
  {
    load[k + 1] == load[k] + if IsOrder(input, stops[k].orderId) then stops[k].loadChange else 0
  }

  ghost predicate Overloads(input: SolverInput, v: SolverVehicle, stops: seq<SolverStop>, load: seq<int>, k: int) {
    0 <= k < |stops| && IsOrder(input, stops[k].orderId) && Counted(input, v, stops, load) && !(0 <= load[k + 1] <= v.capacity)
  }

  ghost predicate Late(input: SolverInput, v: SolverVehicle, stops: seq<SolverStop>, cells: seq<nat>, k: int)
    requires input.MatricesFit()
  {
    0 <= k < |stops| && Placed(input, v, stops, cells) && !OnTime(input, v, stops, cells, k)
  }

  ghost predicate Miscounts(input: SolverInput, v: SolverVehicle, route: SolverRoute, cells: seq<nat>, metres: seq<int>)
    requires input.MatricesFit()
  {
    && route.stops != [] && Placed(input, v, route.stops, cells) && Metred(input, v, route.stops, cells, metres)
    && route.distance != metres[|route.stops|]
  }

  ghost predicate Mistimes(input: SolverInput, v: SolverVehicle, route: SolverRoute, cells: seq<nat>) {
    && route.stops != [] && Placed(input, v, route.stops, cells)
    && route.duration != route.stops[|route.stops| - 1].departure - v.availableFrom
  }

  /** Stop p takes the goods on and stop d drops them, in whatever order, and there are no other stops of
      the order. */
  ghost predicate PairOf(order: SolverOrder, stops: seq<SolverStop>, p: int, d: int) {
    && 0 <= p < |stops| && 0 <= d < |stops| && p != d
    && stops[p].orderId == order.orderId && stops[d].orderId == order.orderId
    && (forall k :: 0 <= k < |stops| && stops[k].orderId == order.orderId ==> k == p || k == d)
    && stops[p].kind == (if order.pickup.Some? then Pickup else Handover) && stops[d].kind == Delivery
  }

  /** The first delivery of the order. */
  ghost predicate FirstDelivery(order: SolverOrder, stops: seq<SolverStop>, d: int) {
    && 0 <= d < |stops| && stops[d].orderId == order.orderId && stops[d].kind == Delivery
    && forall k :: 0 <= k < d ==> stops[k].orderId != order.orderId || stops[k].kind != Delivery
  }

  ghost predicate WholeStopSet(order: SolverOrder, stops: seq<SolverStop>) {
    if order.requiredVehicle.Some? then exists d :: OnlyAt(stops, order.orderId, d) && stops[d].kind == Delivery
    else exists p, d :: PairOf(order, stops, p, d)
  }

  ghost predicate GroupTells(order: SolverOrder, vehicle: Option<SolverVehicle>, stops: seq<SolverStop>, c: Code) {
    match c
    case OrderStopSetInvalid => !WholeStopSet(order, stops)
    case RequiredVehicleMismatch =>
      order.requiredVehicle.Some? && vehicle.Some? && vehicle.value.vehicleId != order.requiredVehicle.value
    case DeliveryLocationMismatch =>
      if order.requiredVehicle.Some? then exists d :: FirstDelivery(order, stops, d) && stops[d].locationId != order.delivery
      else exists p, d :: PairOf(order, stops, p, d) && stops[d].locationId != order.delivery
    case OriginLocationMismatch =>
      && order.requiredVehicle == None
      && exists p, d :: PairOf(order, stops, p, d) && Some(stops[p].locationId) != if order.pickup.Some? then order.pickup else order.handover
    case StopPrecedenceInvalid =>
      order.requiredVehicle == None && exists p, d :: PairOf(order, stops, p, d) && stops[d].sequenceNo <= stops[p].sequenceNo
    case _ => false
  }

  // ----- the stops of one order -----

  lemma {:induction false} FirstOfKind(order: SolverOrder, stops: seq<SolverStop>)
    ensures var found := OfKind(StopsOf(stops, order.orderId), Delivery);
            if found == [] then forall d :: !FirstDelivery(order, stops, d)
            else exists d :: FirstDelivery(order, stops, d) && stops[d] == found[0]
    ensures forall d, e :: FirstDelivery(order, stops, d) && FirstDelivery(order, stops, e) ==> d == e
  {
    var o := order.orderId;
    if stops != [] {
      var front, last := stops[..|stops| - 1], stops[|stops| - 1];
      FirstOfKind(order, front);
      forall d ensures d < |front| ==> (FirstDelivery(order, stops, d) <==> FirstDelivery(order, front, d)) { }
      if last.orderId == o {
        assert (StopsOf(front, o) + [last])[..|StopsOf(front, o)|] == StopsOf(front, o);
      } else {
        assert StopsOf(front, o) + [] == StopsOf(front, o);
      }
      var before := OfKind(StopsOf(front, o), Delivery);
      if before == [] {
        if last.orderId == o && last.kind == Delivery {
          NoDeliveryBefore(order, front);
          assert FirstDelivery(order, stops, |front|);
        } else {
          forall d ensures !FirstDelivery(order, stops, d) { }
        }
      } else {
        var d :| FirstDelivery(order, front, d) && front[d] == before[0];
        assert FirstDelivery(order, stops, d);
      }
    }
  }

  lemma {:induction false} NoDeliveryBefore(order: SolverOrder, stops: seq<SolverStop>)
    requires forall d :: !FirstDelivery(order, stops, d)
    ensures forall k :: 0 <= k < |stops| ==> stops[k].orderId != order.orderId || stops[k].kind != Delivery
  {
    for k := 0 to |stops|
      invariant forall j :: 0 <= j < k ==> stops[j].orderId != order.orderId || stops[j].kind != Delivery
    {
      assert !FirstDelivery(order, stops, k);
    }
  }

  /** The grouped stops form a pair exactly when the route has one. */
  lemma {:induction false} PairIff(order: SolverOrder, stops: seq<SolverStop>)
    requires order.Valid() && !order.DeliveryOnly()
    ensures var group := StopsOf(stops, order.orderId);
            (|OfKind(group, order.OriginKind())| == 1 && |OfKind(group, Delivery)| == 1 && |group| == 2)
            <==> exists p, d :: PairOf(order, stops, p, d)
    ensures forall p, d :: PairOf(order, stops, p, d) ==>
              var group := StopsOf(stops, order.orderId);
              OfKind(group, order.OriginKind()) == [stops[p]] && OfKind(group, Delivery) == [stops[d]]
  {
    var o := order.orderId;
    var group := StopsOf(stops, o);
    if |group| == 2 {
      var p, d := FilteredTwo(stops, o);
      OfKindPair(stops[p], stops[d], order.OriginKind());
      OfKindPair(stops[p], stops[d], Delivery);
      if |OfKind(group, order.OriginKind())| == 1 && |OfKind(group, Delivery)| == 1 {
        assert PairOf(order, stops, p, d) || PairOf(order, stops, d, p);
      }
    }
    forall p, d | PairOf(order, stops, p, d)
      ensures |group| == 2 && OfKind(group, order.OriginKind()) == [stops[p]] && OfKind(group, Delivery) == [stops[d]]
    {
      if p < d { TwoFiltered(stops, o, p, d); } else { TwoFiltered(stops, o, d, p); }
      OfKindPair(stops[p], stops[d], order.OriginKind());
      OfKindPair(stops[p], stops[d], Delivery);
      OfKindPair(stops[d], stops[p], order.OriginKind());
      OfKindPair(stops[d], stops[p], Delivery);
    }
  }

  lemma {:induction false} AloneIff(order: SolverOrder, stops: seq<SolverStop>)
    ensures var group := StopsOf(stops, order.orderId);
            (|OfKind(group, Delivery)| == 1 && |group| == 1) <==> exists d :: OnlyAt(stops, order.orderId, d) && stops[d].kind == Delivery
  {
    var group := StopsOf(stops, order.orderId);
    if |group| == 1 {
      var d := FilteredOne(stops, order.orderId);
      OfKindPair(stops[d], stops[d], Delivery);
    }
    if d :| OnlyAt(stops, order.orderId, d) && stops[d].kind == Delivery {
      OneFiltered(stops, order.orderId, d);
      OfKindPair(stops[d], stops[d], Delivery);
    }
  }

  lemma {:induction false} GroupIssueIs(order: SolverOrder, vehicle: Option<SolverVehicle>, stops: seq<SolverStop>, c: Code)
    requires order.Valid()
    ensures GroupIssue(order, vehicle, StopsOf(stops, order.orderId), c) <==> GroupTells(order, vehicle, stops, c)
  {
    if order.DeliveryOnly() {
      AloneIff(order, stops);
      FirstOfKind(order, stops);
    } else {
      PairIff(order, stops);
    }
  }

  // ----- what the codes say about the whole result -----

  ghost predicate OwnStopTells(input: SolverInput, order: SolverOrder, route: SolverRoute, k: int, c: Code) {
    && IsOrderOf(input, order, route.stops, k)
    && var stop := route.stops[k];
       match c
       case StopServiceTimeInvalid => ServesWrongly(order, stop)
       case StopLoadChangeInvalid => LoadsWrongly(order, stop)
       case PickupReadyTimeViolated => (stop.kind == Pickup || stop.kind == Handover) && stop.arrival < order.ready
       case DeliveryWindowViolated => stop.kind == Delivery && (stop.arrival < order.windowStart || order.windowEnd < stop.arrival)
       case VehicleAvailabilityViolated =>
         exists v :: IsVehicleOf(input, v, route) && (stop.arrival < v.availableFrom || v.availableUntil < stop.departure)
       case _ => false
  }

  /** Some order of the route is on an earlier one. */
  ghost predicate ServedBefore(input: SolverInput, routes: seq<SolverRoute>, i: int, k: int, j: int, m: int) {
    && 0 <= j < i < |routes| && 0 <= k < |routes[i].stops|
    && IsOrder(input, routes[i].stops[k].orderId) && Stands(routes, j, m, routes[i].stops[k].orderId)
  }

  predicate StopCode(c: Code) {
    c in {UnknownOrder, StopServiceTimeInvalid, StopLoadChangeInvalid, VehicleCapacityExceeded,
          PickupReadyTimeViolated, DeliveryWindowViolated, VehicleAvailabilityViolated}
  }

  predicate LegCode(c: Code) {
    c in {RouteTravelTimeInvalid, RouteDistanceMismatch, RouteDurationMismatch}
  }

  predicate GroupCode(c: Code) {
    c in {OrderStopSetInvalid, OriginLocationMismatch, DeliveryLocationMismatch, RequiredVehicleMismatch, StopPrecedenceInvalid}
  }

  /** What the codes say about one stop. */
  ghost predicate StopTells(input: SolverInput, route: SolverRoute, k: nat, c: Code)
    requires k < |route.stops|
  {
    match c
    case UnknownOrder => !IsOrder(input, route.stops[k].orderId)
    case VehicleCapacityExceeded => exists v, load :: IsVehicleOf(input, v, route) && Overloads(input, v, route.stops, load, k)
    case _ => exists order :: OwnStopTells(input, order, route, k, c)
  }

  ghost predicate VehicleTells(input: SolverInput, v: SolverVehicle, route: SolverRoute, c: Code)
    requires input.MatricesFit()
  {
    && IsVehicleOf(input, v, route)
    && match c
       case RouteTravelTimeInvalid => exists cells, k :: Late(input, v, route.stops, cells, k)
       case RouteDistanceMismatch => exists cells, metres :: Miscounts(input, v, route, cells, metres)
       case RouteDurationMismatch => exists cells :: Mistimes(input, v, route, cells)
       case _ => false
  }

  /** The stops of one order on the route. */
  ghost predicate OrderTells(input: SolverInput, order: SolverOrder, route: SolverRoute, k: int, c: Code) {
    && IsOrderOf(input, order, route.stops, k)
    && match c
       case RequiredVehicleMismatch => exists v :: IsVehicleOf(input, v, route) && GroupTells(order, Some(v), route.stops, c)
       case _ => GroupTells(order, None, route.stops, c)
  }

  ghost predicate SomeStopTells(input: SolverInput, route: SolverRoute, c: Code) {
    exists k :: 0 <= k < |route.stops| && StopTells(input, route, k, c)
  }

  ghost predicate SomeOrderTells(input: SolverInput, route: SolverRoute, c: Code) {
    exists order, k :: OrderTells(input, order, route, k, c)
  }

  ghost predicate Misnumbered(stops: seq<SolverStop>) {
    exists k :: 0 <= k < |stops| && stops[k].sequenceNo != k + 1
  }

  ghost predicate DrivenTwice(routes: seq<SolverRoute>, i: nat)
    requires i < |routes|
  {
    exists j :: 0 <= j < i && routes[j].vehicleId == routes[i].vehicleId
  }

  ghost predicate ServedTwice(input: SolverInput, routes: seq<SolverRoute>, i: nat) {
    exists k, j, m :: ServedBefore(input, routes, i, k, j, m)
  }

  ghost predicate RouteTells(input: SolverInput, routes: seq<SolverRoute>, i: nat, c: Code)
    requires input.MatricesFit() && i < |routes|
  {
    var route := routes[i];
    if StopCode(c) then SomeStopTells(input, route, c)
    else if LegCode(c) then exists v :: VehicleTells(input, v, route, c)
    else if GroupCode(c) then SomeOrderTells(input, route, c)
    else
      || (c == UnknownVehicle && forall v :: !IsVehicleOf(input, v, route))
      || (c == VehicleRouteDuplicated && DrivenTwice(routes, i))
      || (c == StopSequenceInvalid && Misnumbered(route.stops))
      || (c == OrderDuplicated && ServedTwice(input, routes, i))
  }

  // ----- rows and dictionaries -----

  /** The vehicle of a route is the row with its id, if there is one. */
  lemma {:induction false} VehicleIs(input: SolverInput, route: SolverRoute)
    requires input.Valid()
    ensures var vehicle := VehicleOf(VehiclesById(input.vehicles), route);
            if vehicle.Some? then forall v :: IsVehicleOf(input, v, route) <==> v == vehicle.value
            else forall v :: !IsVehicleOf(input, v, route)
  {
    VehiclesByIdIs(input.vehicles);
    forall v ensures IsVehicleOf(input, v, route) <==> VehicleOf(VehiclesById(input.vehicles), route) == Some(v) {
      VehicleIsListed(input, v);
    }
  }

  lemma {:induction false} OrderIs(input: SolverInput, stops: seq<SolverStop>, k: nat)
    requires input.Valid() && k < |stops|
    ensures var orders, o := OrdersById(input.orders), stops[k].orderId;
            && (o in orders <==> IsOrder(input, o))
            && (o in orders ==> orders[o].Valid() && orders[o].orderId == o)
            && if o in orders then forall order :: IsOrderOf(input, order, stops, k) <==> order == orders[o]
               else forall order :: !IsOrderOf(input, order, stops, k)
  {
    OrdersByIdIs(input.orders);
    IsKnown(input, stops[k].orderId);
    forall order ensures IsOrderOf(input, order, stops, k)
                         <==> stops[k].orderId in OrdersById(input.orders) && OrdersById(input.orders)[stops[k].orderId] == order {
      OrderIsListed(input, order);
    }
  }

  // ----- the stops -----

  lemma {:induction false} CountedIs(input: SolverInput, v: SolverVehicle, stops: seq<SolverStop>, load: seq<int>, n: nat)
    requires input.Valid() && Counted(input, v, stops, load) && n <= |stops|
    ensures load[n] == LoadAfter(OrdersById(input.orders), v.initialLoad, stops, n)
  {
    if 0 < n {
      CountedIs(input, v, stops, load, n - 1);
      assert CountedAt(input, stops, load, n - 1);
      IsKnown(input, stops[n - 1].orderId);
    }
  }

  lemma {:induction false} CountedExists(input: SolverInput, v: SolverVehicle, stops: seq<SolverStop>) returns (load: seq<int>)
    ensures Counted(input, v, stops, load)
  {
    load := [v.initialLoad];
    for k := 0 to |stops|
      invariant |load| == k + 1 && load[0] == v.initialLoad && forall j :: 0 <= j < k ==> CountedAt(input, stops, load, j)
    {
      ghost var before := load;
      load := load + [load[k] + if IsOrder(input, stops[k].orderId) then stops[k].loadChange else 0];
      forall j | 0 <= j <= k ensures CountedAt(input, stops, load, j) {
        if j < k { assert CountedAt(input, stops, before, j); }
      }
    }
  }

  lemma {:induction false} OverloadIs(input: SolverInput, v: SolverVehicle, stops: seq<SolverStop>, k: nat)
    requires input.Valid() && k < |stops|
    ensures (exists load :: Overloads(input, v, stops, load, k))
            <==> IsOrder(input, stops[k].orderId)
                 && !(0 <= LoadAfter(OrdersById(input.orders), v.initialLoad, stops, k + 1) <= v.capacity)
  {
    var load := CountedExists(input, v, stops);
    CountedIs(input, v, stops, load, k + 1);
    if other :| Overloads(input, v, stops, other, k) { CountedIs(input, v, stops, other, k + 1); }
    if !(0 <= load[k + 1] <= v.capacity) && IsOrder(input, stops[k].orderId) { assert Overloads(input, v, stops, load, k); }
  }

  lemma {:induction false} OwnStopIssueIs(input: SolverInput, order: SolverOrder, route: SolverRoute, k: nat, c: Code)
    requires input.Valid() && IsOrderOf(input, order, route.stops, k) && c != VehicleCapacityExceeded
    requires OrdersById(input.orders)[order.orderId := order] == OrdersById(input.orders)
    ensures StopIssue(OrdersById(input.orders), VehicleOf(VehiclesById(input.vehicles), route), route.stops, k, c)
            <==> OwnStopTells(input, order, route, k, c)
  {
    VehicleIs(input, route);
  }

  lemma {:induction false} OverloadIssueIs(input: SolverInput, route: SolverRoute, k: nat)
    requires input.Valid() && k < |route.stops|
    ensures StopIssue(OrdersById(input.orders), VehicleOf(VehiclesById(input.vehicles), route), route.stops, k, VehicleCapacityExceeded)
            <==> StopTells(input, route, k, VehicleCapacityExceeded)
  {
    var vehicle := VehicleOf(VehiclesById(input.vehicles), route);
    IsKnown(input, route.stops[k].orderId);
    VehicleIs(input, route);
    if vehicle.Some? { OverloadIs(input, vehicle.value, route.stops, k); }
  }

  lemma {:induction false} OwnTellsOnly(input: SolverInput, order: SolverOrder, route: SolverRoute, k: nat, c: Code)
    requires c != UnknownOrder && c != VehicleCapacityExceeded && k < |route.stops|
    requires forall other :: IsOrderOf(input, other, route.stops, k) ==> other == order
    ensures StopTells(input, route, k, c) <==> OwnStopTells(input, order, route, k, c)
  {
  }

  lemma {:induction false} StrangerIs(input: SolverInput, route: SolverRoute, k: nat, c: Code)
    requires k < |route.stops| && !IsOrder(input, route.stops[k].orderId)
    ensures StopTells(input, route, k, c) <==> c == UnknownOrder
  {
    forall order ensures !IsOrderOf(input, order, route.stops, k) { }
  }

  lemma {:induction false} StopIssueIs(input: SolverInput, route: SolverRoute, k: nat, c: Code)
    requires input.Valid() && k < |route.stops|
    ensures StopIssue(OrdersById(input.orders), VehicleOf(VehiclesById(input.vehicles), route), route.stops, k, c)
            <==> StopTells(input, route, k, c)
  {
    var orders, o := OrdersById(input.orders), route.stops[k].orderId;
    OrderIs(input, route.stops, k);
    if o !in orders {
      StrangerIs(input, route, k, c);
    } else if c == VehicleCapacityExceeded {
      OverloadIssueIs(input, route, k);
    } else if c != UnknownOrder {
      OwnTellsOnly(input, orders[o], route, k, c);
      OwnStopIssueIs(input, orders[o], route, k, c);
    }
  }

  // ----- the legs -----

  lemma {:induction false} PlacedIffLocated(input: SolverInput, v: SolverVehicle, stops: seq<SolverStop>)
    requires v.start in input.locations
    ensures (exists cells :: Placed(input, v, stops, cells)) <==> Located(input, stops)
  {
    if cells :| Placed(input, v, stops, cells) { PlacedIsLocated(input, v, stops, cells); }
    if Located(input, stops) { CellsArePlaced(input, v, stops); }
  }

  lemma {:induction false} TravelIssueIs(input: SolverInput, v: SolverVehicle, route: SolverRoute, c: Code)
    requires input.Valid() && v.start in input.locations && IsVehicleOf(input, v, route)
    ensures TravelIssue(input, Some(v), route, c) <==> VehicleTells(input, v, route, c)
  {
    var stops := route.stops;
    PlacedIffLocated(input, v, stops);
    forall cells, k | 0 <= k < |stops| && Placed(input, v, stops, cells)
      ensures OnTime(input, v, stops, cells, k) <==> !Unreachable(input, v, stops, k)
    {
      OnTimeIff(input, v, stops, cells, k);
    }
    forall cells, metres | Placed(input, v, stops, cells) && Metred(input, v, stops, cells, metres)
      ensures metres[|stops|] == RouteDistance(input, v, stops, |stops|)
    {
      MetresAre(input, v, stops, cells, metres, |stops|);
    }
    if Located(input, stops) {
      CellsArePlaced(input, v, stops);
      var cells := CellsOf(input, v, stops, |stops|);
      var metres := MetresExist(input, v, stops, cells);
      assert Miscounts(input, v, route, cells, metres) <==> stops != [] && route.distance != metres[|stops|];
      assert Mistimes(input, v, route, cells) <==> stops != [] && route.duration != stops[|stops| - 1].departure - v.availableFrom;
      assert forall k :: 0 <= k < |stops| ==> (Late(input, v, stops, cells, k) <==> Unreachable(input, v, stops, k));
    }
  }

  // ----- one route -----

  ghost predicate SomeStopIssue(input: SolverInput, route: SolverRoute, c: Code) {
    exists k :: 0 <= k < |route.stops|
      && StopIssue(OrdersById(input.orders), VehicleOf(VehiclesById(input.vehicles), route), route.stops, k, c)
  }

  lemma {:induction false} StopsTell(input: SolverInput, route: SolverRoute, c: Code)
    requires input.Valid()
    ensures SomeStopIssue(input, route, c) <==> SomeStopTells(input, route, c)
  {
    forall k | 0 <= k < |route.stops|
      ensures StopIssue(OrdersById(input.orders), VehicleOf(VehiclesById(input.vehicles), route), route.stops, k, c)
              <==> StopTells(input, route, k, c)
    {
      StopIssueIs(input, route, k, c);
    }
  }

  ghost predicate SomeGroupIssue(input: SolverInput, route: SolverRoute, c: Code) {
    var orders := OrdersById(input.orders);
    exists o :: o in Served(orders, route.stops)
      && GroupIssue(orders[o], VehicleOf(VehiclesById(input.vehicles), route), StopsOf(route.stops, o), c)
  }

  lemma {:induction false} GroupTellsWithout(order: SolverOrder, vehicle: Option<SolverVehicle>, stops: seq<SolverStop>, c: Code)
    requires c != RequiredVehicleMismatch
    ensures GroupTells(order, vehicle, stops, c) <==> GroupTells(order, None, stops, c)
  {
  }

  lemma {:induction false} GroupAtTells(input: SolverInput, order: SolverOrder, route: SolverRoute, k: nat, c: Code)
    requires input.Valid() && IsOrderOf(input, order, route.stops, k)
    ensures GroupIssue(order, VehicleOf(VehiclesById(input.vehicles), route), StopsOf(route.stops, order.orderId), c)
            <==> OrderTells(input, order, route, k, c)
  {
    var vehicle := VehicleOf(VehiclesById(input.vehicles), route);
    GroupIssueIs(order, vehicle, route.stops, c);
    VehicleIs(input, route);
    if c != RequiredVehicleMismatch { GroupTellsWithout(order, vehicle, route.stops, c); }
  }

  lemma {:induction false} GroupsTell(input: SolverInput, route: SolverRoute, c: Code)
    requires input.Valid()
    ensures SomeGroupIssue(input, route, c) <==> SomeOrderTells(input, route, c)
  {
    var orders, vehicle := OrdersById(input.orders), VehicleOf(VehiclesById(input.vehicles), route);
    if SomeGroupIssue(input, route, c) {
      var o :| o in Served(orders, route.stops) && GroupIssue(orders[o], vehicle, StopsOf(route.stops, o), c);
      var k :| 0 <= k < |route.stops| && route.stops[k].orderId in orders && route.stops[k].orderId == o;
      OrderIs(input, route.stops, k);
      GroupAtTells(input, orders[o], route, k, c);
    }
    if order, k :| OrderTells(input, order, route, k, c) {
      OrderIs(input, route.stops, k);
      GroupAtTells(input, order, route, k, c);
      assert order.orderId in Served(orders, route.stops);
    }
  }

  ghost predicate SomeDuplicate(input: SolverInput, routes: seq<SolverRoute>, i: nat)
    requires i < |routes|
  {
    var orders := OrdersById(input.orders);
    exists o :: o in Served(orders, routes[i].stops) && o in ServedBy(orders, routes, i)
  }

  lemma {:induction false} DuplicateTells(input: SolverInput, routes: seq<SolverRoute>, i: nat)
    requires input.Valid() && i < |routes|
    ensures SomeDuplicate(input, routes, i) <==> ServedTwice(input, routes, i)
  {
    var orders := OrdersById(input.orders);
    if SomeDuplicate(input, routes, i) {
      var o :| o in Served(orders, routes[i].stops) && o in ServedBy(orders, routes, i);
      var k :| 0 <= k < |routes[i].stops| && routes[i].stops[k].orderId in orders && routes[i].stops[k].orderId == o;
      ServedByIs(orders, routes, i, o);
      var j :| j < i && OnRoute(routes, j, o);
      StandsIsOnRoute(routes, j, o);
      var m :| Stands(routes, j, m, o);
      IsKnown(input, o);
      assert ServedBefore(input, routes, i, k, j, m);
    }
    if k, j, m :| ServedBefore(input, routes, i, k, j, m) {
      var o := routes[i].stops[k].orderId;
      IsKnown(input, o);
      StandsIsOnRoute(routes, j, o);
      ServedByIs(orders, routes, i, o);
      assert o in Served(orders, routes[i].stops);
    }
  }

  lemma {:induction false} StopCodeReports(input: SolverInput, routes: seq<SolverRoute>, i: nat, c: Code)
    requires input.MatricesFit() && i < |routes| && StartsInMatrix(input, VehiclesById(input.vehicles)) && StopCode(c)
    ensures RouteReports(input, routes, i, c) <==> SomeStopIssue(input, routes[i], c)
  {
    forall order, vehicle, group ensures !GroupIssue(order, vehicle, group, c) { }
  }

  lemma {:induction false} LegCodeReports(input: SolverInput, routes: seq<SolverRoute>, i: nat, c: Code)
    requires input.MatricesFit() && i < |routes| && StartsInMatrix(input, VehiclesById(input.vehicles)) && LegCode(c)
    ensures RouteReports(input, routes, i, c) <==> TravelIssue(input, VehicleOf(VehiclesById(input.vehicles), routes[i]), routes[i], c)
  {
    forall order, vehicle, group ensures !GroupIssue(order, vehicle, group, c) { }
    forall orders, vehicle, k | 0 <= k < |routes[i].stops| ensures !StopIssue(orders, vehicle, routes[i].stops, k, c) { }
  }

  lemma {:induction false} GroupCodeReports(input: SolverInput, routes: seq<SolverRoute>, i: nat, c: Code)
    requires input.MatricesFit() && i < |routes| && StartsInMatrix(input, VehiclesById(input.vehicles)) && GroupCode(c)
    ensures RouteReports(input, routes, i, c) <==> SomeGroupIssue(input, routes[i], c)
  {
    forall orders, vehicle, k | 0 <= k < |routes[i].stops| ensures !StopIssue(orders, vehicle, routes[i].stops, k, c) { }
  }

  lemma {:induction false} OtherCodeReports(input: SolverInput, routes: seq<SolverRoute>, i: nat, c: Code)
    requires input.MatricesFit() && i < |routes| && StartsInMatrix(input, VehiclesById(input.vehicles))
    requires !StopCode(c) && !LegCode(c) && !GroupCode(c)
    ensures RouteReports(input, routes, i, c) <==>
              || (c == UnknownVehicle && VehicleOf(VehiclesById(input.vehicles), routes[i]) == None)
              || (c == VehicleRouteDuplicated && routes[i].vehicleId in DrivenBy(routes, i))
              || (c == StopSequenceInvalid && Misnumbered(routes[i].stops))
              || (c == OrderDuplicated && SomeDuplicate(input, routes, i))
  {
    forall order, vehicle, group ensures !GroupIssue(order, vehicle, group, c) { }
    forall orders, vehicle, k | 0 <= k < |routes[i].stops| ensures !StopIssue(orders, vehicle, routes[i].stops, k, c) { }
  }

  lemma {:induction false} LegsTell(input: SolverInput, route: SolverRoute, c: Code)
    requires input.Valid() && StartsInMatrix(input, VehiclesById(input.vehicles))
    ensures (exists v :: VehicleTells(input, v, route, c))
            <==> TravelIssue(input, VehicleOf(VehiclesById(input.vehicles), route), route, c)
  {
    var vehicle := VehicleOf(VehiclesById(input.vehicles), route);
    VehicleIs(input, route);
    if vehicle.Some? { TravelIssueIs(input, vehicle.value, route, c); }
  }

  lemma {:induction false} OtherCodeTells(input: SolverInput, routes: seq<SolverRoute>, i: nat)
    requires input.Valid() && i < |routes|
    ensures VehicleOf(VehiclesById(input.vehicles), routes[i]) == None <==> forall v :: !IsVehicleOf(input, v, routes[i])
    ensures routes[i].vehicleId in DrivenBy(routes, i) <==> DrivenTwice(routes, i)
    ensures SomeDuplicate(input, routes, i) <==> ServedTwice(input, routes, i)
  {
    VehicleIs(input, routes[i]);
    var vehicle := VehicleOf(VehiclesById(input.vehicles), routes[i]);
    if vehicle.Some? { assert IsVehicleOf(input, vehicle.value, routes[i]); }
    DrivenByIs(routes, i, routes[i].vehicleId);
    DuplicateTells(input, routes, i);
  }

  /** Route i is reported for c exactly when the rows tell so. */
  lemma {:induction false} RouteReportsIff(input: SolverInput, routes: seq<SolverRoute>, i: nat, c: Code)
    requires input.Valid() && i < |routes| && StartsInMatrix(input, VehiclesById(input.vehicles))
    ensures RouteReports(input, routes, i, c) <==> RouteTells(input, routes, i, c)
  {
    if StopCode(c) {
      StopCodeReports(input, routes, i, c);
      StopsTell(input, routes[i], c);
    } else if LegCode(c) {
      LegCodeReports(input, routes, i, c);
      LegsTell(input, routes[i], c);
    } else if GroupCode(c) {
      GroupCodeReports(input, routes, i, c);
      GroupsTell(input, routes[i], c);
    } else {
      OtherCodeReports(input, routes, i, c);
      OtherCodeTells(input, routes, i);
    }
  }

  // ----- the whole result -----

  ghost predicate UnassignedTells(input: SolverInput, result: SolverResult, j: int, c: Code) {
    && 0 <= j < |result.unassigned|
    && var o := result.unassigned[j].orderId;
       match c
       case UnknownOrder => !IsOrder(input, o)
       case OrderDuplicated =>
         || (IsOrder(input, o) && exists i, k :: Stands(result.routes, i, k, o))
         || exists l :: 0 <= l < j && result.unassigned[l].orderId == o
       case _ => false
  }

  ghost predicate IsMissing(result: SolverResult, order: SolverOrder) {
    && (forall i, k :: !Stands(result.routes, i, k, order.orderId))
    && forall j :: !ListedAt(result.unassigned, j, order.orderId)
  }

  ghost predicate SomeUnassignedTells(input: SolverInput, result: SolverResult, c: Code) {
    exists j :: UnassignedTells(input, result, j, c)
  }

  ghost predicate SomeMissing(input: SolverInput, result: SolverResult) {
    exists order :: order in input.orders && IsMissing(result, order)
  }

  ghost predicate SomeTaskLost(input: SolverInput, result: SolverResult) {
    exists f :: f in input.frozen && !StaysOn(result.routes, f)
  }

  ghost predicate AddsUpTo(terms: seq<int>, total: int) {
    exists sums :: RunningTotal(terms, sums, total)
  }

  ghost predicate ResultTells(input: SolverInput, result: SolverResult, c: Code) {
    || SomeUnassignedTells(input, result, c)
    || (c == OrderResultMissing && SomeMissing(input, result))
    || (c == FrozenTaskMissing && SomeTaskLost(input, result))
    || (c == TotalDistanceMismatch && !AddsUpTo(DistancesOf(result.routes), result.totalDistance))
    || (c == TotalDurationMismatch && !AddsUpTo(DurationsOf(result.routes), result.totalDuration))
  }

  /** What code c tells about a result. */
  ghost predicate Tells(input: SolverInput, result: SolverResult, c: Code)
    requires input.MatricesFit()
  {
    if result.status != Feasible then
      c == StatusResultConflict && (result.routes != [] || result.totalDistance != 0 || result.totalDuration != 0)
    else
      || (exists i :: 0 <= i < |result.routes| && RouteTells(input, result.routes, i, c))
      || ResultTells(input, result, c)
  }

  lemma {:induction false} TakenIs(input: SolverInput, routes: seq<SolverRoute>, o: Id)
    requires input.Valid()
    ensures o in ServedBy(OrdersById(input.orders), routes, |routes|)
            <==> IsOrder(input, o) && exists i, k :: Stands(routes, i, k, o)
  {
    var orders := OrdersById(input.orders);
    IsKnown(input, o);
    if o in orders {
      ServedByIs(orders, routes, |routes|, o);
      if i :| i < |routes| && OnRoute(routes, i, o) { StandsIsOnRoute(routes, i, o); }
      if i, k :| Stands(routes, i, k, o) { StandsIsOnRoute(routes, i, o); }
    } else {
      NotServed(orders, routes, |routes|, o);
    }
  }

  lemma {:induction false} NotServed(orders: Orders, routes: seq<SolverRoute>, n: nat, o: Id)
    requires n <= |routes| && o !in orders
    ensures o !in ServedBy(orders, routes, n)
  {
    if 0 < n { NotServed(orders, routes, n - 1, o); }
  }

  lemma {:induction false} UnassignedReportsIff(input: SolverInput, result: SolverResult, j: nat, c: Code)
    requires input.Valid() && j < |result.unassigned|
    ensures var orders := OrdersById(input.orders);
            UnassignedReports(orders, result.unassigned, ServedBy(orders, result.routes, |result.routes|), j, c)
            <==> UnassignedTells(input, result, j, c)
  {
    IsKnown(input, result.unassigned[j].orderId);
    TakenIs(input, result.routes, result.unassigned[j].orderId);
  }

  ghost predicate SomeForgotten(input: SolverInput, result: SolverResult) {
    var orders := OrdersById(input.orders);
    exists o :: o in orders && Forgotten(ServedBy(orders, result.routes, |result.routes|), result.unassigned, o)
  }

  ghost predicate SomeTaskDropped(input: SolverInput, result: SolverResult) {
    exists f :: f in input.frozen && !Kept(f, result.routes)
  }

  lemma {:induction false} MissingIff(input: SolverInput, result: SolverResult)
    requires input.Valid()
    ensures SomeForgotten(input, result) <==> SomeMissing(input, result)
  {
    var orders := OrdersById(input.orders);
    var taken := ServedBy(orders, result.routes, |result.routes|);
    OrdersByIdIs(input.orders);
    if o :| o in orders && Forgotten(taken, result.unassigned, o) {
      TakenIs(input, result.routes, o);
      IsKnown(input, o);
      assert orders[o] in input.orders && IsMissing(result, orders[o]);
    }
    if order :| order in input.orders && IsMissing(result, order) {
      OrderIsListed(input, order);
      TakenIs(input, result.routes, order.orderId);
      forall j | 0 <= j < |result.unassigned| ensures result.unassigned[j].orderId != order.orderId {
        assert !ListedAt(result.unassigned, j, order.orderId);
      }
      assert Forgotten(taken, result.unassigned, order.orderId);
    }
  }

  ghost predicate SomeUnassignedReports(input: SolverInput, result: SolverResult, c: Code) {
    var orders := OrdersById(input.orders);
    var taken := ServedBy(orders, result.routes, |result.routes|);
    exists j :: 0 <= j < |result.unassigned| && UnassignedReports(orders, result.unassigned, taken, j, c)
  }

  lemma {:induction false} UnassignedTell(input: SolverInput, result: SolverResult, c: Code)
    requires input.Valid()
    ensures SomeUnassignedReports(input, result, c) <==> SomeUnassignedTells(input, result, c)
  {
    var orders := OrdersById(input.orders);
    var taken := ServedBy(orders, result.routes, |result.routes|);
    if j :| 0 <= j < |result.unassigned| && UnassignedReports(orders, result.unassigned, taken, j, c) {
      UnassignedReportsIff(input, result, j, c);
    }
    if j :| UnassignedTells(input, result, j, c) {
      UnassignedReportsIff(input, result, j, c);
      assert UnassignedReports(orders, result.unassigned, taken, j, c);
    }
  }

  lemma {:induction false} FrozenTell(input: SolverInput, result: SolverResult)
    ensures SomeTaskDropped(input, result) <==> SomeTaskLost(input, result)
  {
    forall f ensures Kept(f, result.routes) <==> StaysOn(result.routes, f) { }
  }

  lemma {:induction false} TotalsTell(result: SolverResult)
    ensures AddsUpTo(DistancesOf(result.routes), result.totalDistance) <==> result.totalDistance == TotalDistance(result.routes, |result.routes|)
    ensures AddsUpTo(DurationsOf(result.routes), result.totalDuration) <==> result.totalDuration == TotalDuration(result.routes, |result.routes|)
  {
    TotalsMatch(result);
  }

  lemma {:induction false} ResultParts(input: SolverInput, result: SolverResult, c: Code)
    ensures ResultIssue(input, result, c) <==>
              || SomeUnassignedReports(input, result, c)
              || (c == OrderResultMissing && SomeForgotten(input, result))
              || (c == FrozenTaskMissing && SomeTaskDropped(input, result))
              || (c == TotalDistanceMismatch && result.totalDistance != TotalDistance(result.routes, |result.routes|))
              || (c == TotalDurationMismatch && result.totalDuration != TotalDuration(result.routes, |result.routes|))
  {
  }

  lemma {:induction false} ResultIssueIs(input: SolverInput, result: SolverResult, c: Code)
    requires input.Valid()
    ensures ResultIssue(input, result, c) <==> ResultTells(input, result, c)
  {
    ResultParts(input, result, c);
    UnassignedTell(input, result, c);
    MissingIff(input, result);
    FrozenTell(input, result);
    TotalsTell(result);
  }

  /** Every code is reported if and only if what it tells holds of the rows. */
  lemma {:induction false} ReportedIff(input: SolverInput, result: SolverResult, c: Code)
    requires input.Valid()
    ensures StartsInMatrix(input, VehiclesById(input.vehicles))
    ensures Reported(input, result, c) <==> Tells(input, result, c)
  {
    DictionariesAreKnown(input);
    ResultIssueIs(input, result, c);
    forall i | 0 <= i < |result.routes| ensures RouteReports(input, result.routes, i, c) <==> RouteTells(input, result.routes, i, c) {
      RouteReportsIff(input, result.routes, i, c);
    }
  }
}
