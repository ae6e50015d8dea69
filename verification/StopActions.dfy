/** One stop action, told column by column: when it is taken, what it writes, and which orders are at
    risk afterwards. */
module StopActions {
  import opened Ordering
  import opened Domain
  import opened Risk
  import opened Execution

  // ----- when an action is taken -----

  /** Stop j is served right before stop k: the last listed with a smaller number. */
  ghost predicate ServedBefore(stops: seq<Stop>, j: int, k: nat)
    requires k < |stops|
  {
    && 0 <= j < |stops| && stops[j].sequenceNo < stops[k].sequenceNo
    && forall i :: j < i < |stops| ==> stops[k].sequenceNo <= stops[i].sequenceNo
  }

  lemma {:induction false} PreviousIs(stops: seq<Stop>, sequenceNo: int)
    ensures var previous := Previous(stops, sequenceNo);
            if previous == None then forall i :: 0 <= i < |stops| ==> sequenceNo <= stops[i].sequenceNo
            else exists j :: 0 <= j < |stops| && stops[j].sequenceNo < sequenceNo && previous == Some(stops[j])
                             && forall i :: j < i < |stops| ==> sequenceNo <= stops[i].sequenceNo
  {
    if stops != [] && sequenceNo <= stops[|stops| - 1].sequenceNo {
      PreviousIs(stops[..|stops| - 1], sequenceNo);
    }
  }

  /** The stop, its route and the rows it needs. */
  ghost predicate Equipment(w: World, stopId: Id, r: Id, k: nat) {
    && stopId in w.index && w.index[stopId] == Place(r, k) && r in w.routes && k < |w.routes[r].stops|
    && var route := w.routes[r];
       && route.planId in w.plans && w.plans[route.planId] == PlanCurrent
       && route.vehicleId in w.vehicles && route.driverId in w.drivers && route.assignmentId in w.assignments
       && forall i :: 0 <= i < |route.stops| ==> route.stops[i].orderId in w.orders
  }

  /** Everything before stop k is done. */
  ghost predicate IsNext(stops: seq<Stop>, k: nat)
    requires k < |stops|
  {
    forall i :: 0 <= i < |stops| && stops[i].sequenceNo < stops[k].sequenceNo ==> stops[i].status == Completed
  }

  /** Not before the departure from the stop before, and no departure before the arrival. */
  ghost predicate GoesForward(stops: seq<Stop>, k: nat, a: Action, t: Instant)
    requires k < |stops|
  {
    && (forall j :: ServedBefore(stops, j, k) && stops[j].actualDeparture.Some? ==> stops[j].actualDeparture.value <= t)
    && (a == Complete && stops[k].actualArrival.Some? ==> stops[k].actualArrival.value <= t)
  }

  ghost predicate RouteIsOpen(route: Route) {
    route.status == RoutePlanned || route.status == RouteActive
  }

  ghost predicate AssignmentIsOpen(a: Assignment) {
    a.status == AssignmentPlanned || a.status == AssignmentActive
  }

  predicate Awaits(status: StopStatus, a: Action) {
    match a
    case Arrive => status == Planned
    case StartService => status == Arrived
    case Complete => status == InService
  }

  predicate IsDone(status: StopStatus, a: Action) {
    match a
    case Arrive => status == Arrived
    case StartService => status == InService
    case Complete => status == Completed
  }

  ghost predicate MayHappen(w: World, r: Id, k: nat, a: Action, t: Instant)
    requires r in w.routes && k < |w.routes[r].stops|
    requires var route := w.routes[r]; route.vehicleId in w.vehicles && route.driverId in w.drivers && route.assignmentId in w.assignments
  {
    var route := w.routes[r];
    && Awaits(route.stops[k].status, a) && IsNext(route.stops, k) && GoesForward(route.stops, k, a, t)
    && RouteIsOpen(route) && w.vehicles[route.vehicleId] != Unavailable && w.drivers[route.driverId] != Unavailable
    && AssignmentIsOpen(w.assignments[route.assignmentId])
  }

  lemma {:induction false} EventTimeIff(stops: seq<Stop>, k: nat, a: Action, t: Instant)
    requires k < |stops|
    ensures EventTimeOk(stops, k, t, Target(a)) <==> GoesForward(stops, k, a, t)
  {
    PreviousIs(stops, stops[k].sequenceNo);
    forall i, j | ServedBefore(stops, i, k) && ServedBefore(stops, j, k) ensures i == j { }
    if j :| ServedBefore(stops, j, k) {
      assert Previous(stops, stops[k].sequenceNo) == Some(stops[j]);
    }
  }

  /** With all rows in place an action goes through exactly when it has been done already or may happen,
      and the refusals name the first thing that stands against it. */
  lemma {:induction false} OutcomeIff(w: World, stopId: Id, r: Id, k: nat, a: Action, t: Instant)
    requires Equipment(w, stopId, r, k)
    ensures var route, outcome := w.routes[r], Verdict(w, stopId, a, t);
            var stop, next, forward := route.stops[k], IsNext(route.stops, k), GoesForward(route.stops, k, a, t);
            var vehicle, driver := w.vehicles[route.vehicleId], w.drivers[route.driverId];
            var ready := Awaits(stop.status, a) && next && forward && RouteIsOpen(route);
            && (outcome == Done <==> IsDone(stop.status, a) || MayHappen(w, r, k, a, t))
            && (outcome == InvalidStopTransition <==>
                 !IsDone(stop.status, a) && (!Awaits(stop.status, a) || !next || (forward && !RouteIsOpen(route))))
            && (outcome == InvalidEventTime <==> Awaits(stop.status, a) && next && !forward)
            && (outcome == VehicleNotAvailable <==> ready && vehicle == Unavailable)
            && (outcome == DriverNotAvailable <==> ready && vehicle != Unavailable && driver == Unavailable)
            && (outcome == InvalidAssignment <==>
                 ready && vehicle != Unavailable && driver != Unavailable && !AssignmentIsOpen(w.assignments[route.assignmentId]))
    ensures Takes(w, stopId, a, t) <==> MayHappen(w, r, k, a, t)
  {
    EventTimeIff(w.routes[r].stops, k, a, t);
  }

  /** Without them it is refused, by what is missing first. */
  lemma {:induction false} RowsIff(w: World, stopId: Id, a: Action, t: Instant)
    ensures Verdict(w, stopId, a, t) == StopNotFound <==> stopId !in w.index
    ensures Verdict(w, stopId, a, t) == RouteNotFound <==>
              && stopId in w.index
              && var p := w.index[stopId]; !(p.routeId in w.routes && p.at < |w.routes[p.routeId].stops|)
    ensures Verdict(w, stopId, a, t) == BasePlanNotCurrent <==>
              && stopId in w.index
              && var p := w.index[stopId];
                 && p.routeId in w.routes && p.at < |w.routes[p.routeId].stops|
                 && !(w.routes[p.routeId].planId in w.plans && w.plans[w.routes[p.routeId].planId] == PlanCurrent)
    ensures Verdict(w, stopId, a, t) in {StopNotFound, RouteNotFound, BasePlanNotCurrent, ResourceMissing}
            <==> forall r, k :: !Equipment(w, stopId, r, k)
  {
    if stopId in w.index {
      var p := w.index[stopId];
      assert p == Place(p.routeId, p.at);
      if Verdict(w, stopId, a, t) !in {StopNotFound, RouteNotFound, BasePlanNotCurrent, ResourceMissing} {
        assert Equipment(w, stopId, p.routeId, p.at);
      }
    }
  }

  // ----- the rows it writes -----

  /** The new row of the stop. */
  ghost predicate StopMoved(was: Stop, now: Stop, a: Action, t: Instant) {
    && now == was.(status := now.status, actualArrival := now.actualArrival, actualDeparture := now.actualDeparture)
    && IsDone(now.status, a)
    && now.actualArrival == (if a == Arrive then Some(t) else was.actualArrival)
    && now.actualDeparture == (if a == Complete then Some(t) else was.actualDeparture)
  }

  ghost predicate AllDone(stops: seq<Stop>) {
    forall i :: 0 <= i < |stops| ==> stops[i].status == Completed
  }

  /** The new row of the route: started if it had not been, ended with its last stop. */
  ghost predicate RouteMoved(was: Route, now: Route, k: nat, a: Action, t: Instant)
    requires k < |was.stops|
  {
    && now == was.(status := now.status, actualStart := now.actualStart, actualEnd := now.actualEnd, stops := now.stops)
    && |now.stops| == |was.stops| && StopMoved(was.stops[k], now.stops[k], a, t)
    && (forall i :: 0 <= i < |was.stops| && i != k ==> now.stops[i] == was.stops[i])
    && now.actualStart == (if was.status == RoutePlanned then Some(t) else was.actualStart)
    && (if AllDone(now.stops) then now.status == RouteCompleted && now.actualEnd == Some(t)
        else now.status == RouteActive && now.actualEnd == was.actualEnd)
  }

  /** A vehicle or a driver is taken when the route starts and released when it ends. */
  ghost predicate ResourceMoved(was: ResourceStatus, now: ResourceStatus, starts: bool, ends: bool) {
    now == if ends then Available else if starts then Active else was
  }

  ghost predicate AssignmentMoved(was: Assignment, now: Assignment, starts: bool, ends: bool, t: Instant) {
    && now.status == (if ends then AssignmentEnded else if starts then AssignmentActive else was.status)
    && now.activatedAt == (if starts && was.activatedAt == None then Some(t) else was.activatedAt)
    && now.endedAt == if ends then Some(t) else was.endedAt
  }

  /** The status of the order after a stop of this kind got this far. */
  ghost predicate OrderMoved(was: OrderStatus, now: OrderStatus, kind: StopKind, a: Action) {
    match (kind, a)
    case (Pickup, Arrive) => now == if was == OrderPlanned then PickupInProgress else was
    case (Pickup, StartService) => now == was
    case (Pickup, Complete) => now == if was == OrderPlanned || was == PickupInProgress then PickedUp else was
    case (Delivery, Complete) => now == OrderCompleted
    case _ => now == if was == OrderCompleted then was else Delivering
  }

  ghost predicate SameOthers<T(!new)>(was: map<Id, T>, now: map<Id, T>, key: Id) {
    now.Keys == was.Keys && forall x :: x in was && x != key ==> now[x] == was[x]
  }

  lemma {:induction false} MovedStopIs(was: Stop, a: Action, t: Instant)
    ensures StopMoved(was, MovedStop(was, Target(a), t), a, t)
  {
  }

  lemma {:induction false} MovedRouteIs(was: Route, k: nat, a: Action, t: Instant)
    requires k < |was.stops| && RouteIsOpen(was) && Awaits(was.stops[k].status, a)
    ensures RouteMoved(was, MovedRoute(was, k, Target(a), t), k, a, t)
    ensures AllDone(MovedRoute(was, k, Target(a), t).stops) <==> Target(a) == Completed && AllCompleted(MovedStops(was, k, Target(a), t))
  {
    MovedStopIs(was.stops[k], a, t);
    var now := MovedRoute(was, k, Target(a), t);
    assert now.stops[k].status == Target(a);
  }

  lemma {:induction false} AdvancedIs(order: Order, kind: StopKind, a: Action)
    ensures OrderMoved(order.status, Advanced(order, kind, Target(a)).status, kind, a)
    ensures Advanced(order, kind, Target(a)).demand == order.demand && Advanced(order, kind, Target(a)).windowEnd == order.windowEnd
  {
  }

  /** What `recalculate_route` leaves of the row of an order: the flag is that of its last delivery. */
  lemma {:induction false} RecalculatedAt(threshold: nat, stops: seq<Stop>, delay: nat, orders: map<Id, Order>, n: nat, o: Id)
    requires n <= |stops| && o in orders
    ensures o in Recalculated(threshold, stops, delay, orders, n)
    ensures var now := Recalculated(threshold, stops, delay, orders, n)[o];
            && now == orders[o].(risk := now.risk)
            && (NoDelivery(stops[..n], o) ==> now == orders[o])
            && (forall d :: LastDelivery(stops[..n], d, o) ==>
                 now.risk == if stops[d].status == Completed then Normal
                             else StatusForEta(threshold, stops[d].plannedArrival + delay, Or(stops[d].windowEnd, orders[o].windowEnd)))
  {
    if 0 < n {
      RecalculatedAt(threshold, stops, delay, orders, n - 1, o);
      assert stops[..n][..n - 1] == stops[..n - 1];
      LastDeliveryGrows(stops[..n], o);
    }
  }

  ghost predicate NoDelivery(stops: seq<Stop>, o: Id) {
    forall i :: 0 <= i < |stops| ==> !(stops[i].orderId == o && stops[i].kind == Delivery)
  }

  ghost predicate LastDelivery(stops: seq<Stop>, d: int, o: Id) {
    && 0 <= d < |stops| && stops[d].orderId == o && stops[d].kind == Delivery
    && forall i :: d < i < |stops| ==> !(stops[i].orderId == o && stops[i].kind == Delivery)
  }

  lemma {:induction false} LastDeliveryGrows(stops: seq<Stop>, o: Id)
    requires stops != []
    ensures var last := stops[|stops| - 1];
            forall d :: LastDelivery(stops, d, o) <==>
              if last.orderId == o && last.kind == Delivery then d == |stops| - 1 else LastDelivery(stops[..|stops| - 1], d, o)
  {
  }

  // ----- who is at risk afterwards -----

  /** The first stop that is not done. */
  ghost predicate FirstOpen(stops: seq<Stop>, f: int) {
    0 <= f < |stops| && stops[f].status != Completed && forall i :: 0 <= i < f ==> stops[i].status == Completed
  }

  lemma {:induction false} DelayIs(stops: seq<Stop>, now: Instant, f: int)
    requires FirstOpen(stops, f)
    ensures RouteDelay(stops, now) == if stops[f].plannedArrival < now then now - stops[f].plannedArrival else 0
    decreases f
  {
    if 0 < f {
      assert stops[0].status == Completed;
      DelayIs(stops[1..], now, f - 1);
    }
  }

  lemma {:induction false} FirstOpenExists(stops: seq<Stop>, d: nat) returns (f: nat)
    requires d < |stops| && stops[d].status != Completed
    ensures FirstOpen(stops, f) && f <= d
  {
    f := 0;
    while stops[f].status == Completed
      invariant f <= d && forall i :: 0 <= i < f ==> stops[i].status == Completed
      decreases d - f
    {
      f := f + 1;
    }
  }

  /** The delivery is estimated to be too late, or within the warning threshold of it: it shifts by as much
      as the first stop that is not done is late by now. */
  ghost predicate TooLate(threshold: nat, stops: seq<Stop>, d: nat, f: nat, now: Instant, orderWindowEnd: Instant)
    requires d < |stops| && f < |stops|
  {
    var late := if stops[f].plannedArrival < now then now - stops[f].plannedArrival else 0;
    var end := if stops[d].windowEnd.Some? then stops[d].windowEnd.value else orderWindowEnd;
    stops[d].plannedArrival + late + threshold >= end
  }

  /** The flags of the orders: every delivery of the route counts, and no other order is touched. */
  ghost predicate FlagIs(threshold: nat, stops: seq<Stop>, was: Order, now: Order, o: Id, t: Instant) {
    && (NoDelivery(stops, o) ==> now.risk == was.risk)
    && (forall d :: LastDelivery(stops, d, o) && stops[d].status == Completed ==> now.risk == Normal)
    && (forall d, f :: LastDelivery(stops, d, o) && stops[d].status != Completed && FirstOpen(stops, f) ==>
         (now.risk == AtRisk <==> TooLate(threshold, stops, d, f, t, was.windowEnd)))
  }

  lemma {:induction false} FlagFollows(threshold: nat, stops: seq<Stop>, t: Instant, orders: map<Id, Order>, o: Id)
    requires o in orders && o in Recalculated(threshold, stops, RouteDelay(stops, t), orders, |stops|)
    ensures FlagIs(threshold, stops, orders[o], Recalculated(threshold, stops, RouteDelay(stops, t), orders, |stops|)[o], o, t)
  {
    RecalculatedAt(threshold, stops, RouteDelay(stops, t), orders, |stops|, o);
    assert stops[..|stops|] == stops;
    forall f | FirstOpen(stops, f)
      ensures RouteDelay(stops, t) == if stops[f].plannedArrival < t then t - stops[f].plannedArrival else 0
    {
      DelayIs(stops, t, f);
    }
  }

  // ----- one action -----

  /** The rows of the order of the stop and of all others. */
  ghost predicate OrdersMoved(threshold: nat, was: map<Id, Order>, now: map<Id, Order>, stops: seq<Stop>, k: nat, a: Action, t: Instant)
    requires k < |stops|
  {
    && now.Keys == was.Keys
    && forall o :: o in was ==>
         && now[o].demand == was[o].demand && now[o].windowEnd == was[o].windowEnd
         && (if o == stops[k].orderId then OrderMoved(was[o].status, now[o].status, stops[k].kind, a) else now[o].status == was[o].status)
         && FlagIs(threshold, stops, was[o], now[o], o, t)
  }

  /** Vehicle, driver and assignment of the route, and no others. */
  ghost predicate ResourcesMoved(was: World, now: World, route: Route, starts: bool, ends: bool, t: Instant) {
    && SameOthers(was.vehicles, now.vehicles, route.vehicleId)
    && SameOthers(was.drivers, now.drivers, route.driverId)
    && SameOthers(was.assignments, now.assignments, route.assignmentId)
    && (route.vehicleId in was.vehicles ==> ResourceMoved(was.vehicles[route.vehicleId], now.vehicles[route.vehicleId], starts, ends))
    && (route.driverId in was.drivers ==> ResourceMoved(was.drivers[route.driverId], now.drivers[route.driverId], starts, ends))
    && (route.assignmentId in was.assignments ==>
         AssignmentMoved(was.assignments[route.assignmentId], now.assignments[route.assignmentId], starts, ends, t))
  }

  ghost predicate RowsMoved(was: World, now: World, r: Id, k: nat, a: Action, t: Instant)
    requires r in was.routes && k < |was.routes[r].stops|
  {
    && now.plans == was.plans && now.index == was.index
    && SameOthers(was.routes, now.routes, r) && RouteMoved(was.routes[r], now.routes[r], k, a, t)
  }

  /** What an action that is taken makes of the tables. */
  ghost predicate Moved(threshold: nat, was: World, now: World, r: Id, k: nat, a: Action, t: Instant)
    requires r in was.routes && k < |was.routes[r].stops|
  {
    && RowsMoved(was, now, r, k, a, t)
    && ResourcesMoved(was, now, was.routes[r], was.routes[r].status == RoutePlanned, AllDone(now.routes[r].stops), t)
    && OrdersMoved(threshold, was.orders, now.orders, now.routes[r].stops, k, a, t)
  }

  lemma {:induction false} TakenIsReady(w: World, stopId: Id, r: Id, k: nat, a: Action, t: Instant)
    requires Equipment(w, stopId, r, k) && MayHappen(w, r, k, a, t)
    ensures Takes(w, stopId, a, t) && Ready(w, Place(r, k))
  {
    OutcomeIff(w, stopId, r, k, a, t);
  }

  lemma {:induction false} RowsAreMoved(threshold: nat, w: World, r: Id, k: nat, a: Action, t: Instant)
    requires Ready(w, Place(r, k)) && RouteIsOpen(w.routes[r]) && Awaits(w.routes[r].stops[k].status, a)
    ensures var now, route := Effect(threshold, w, Place(r, k), Target(a), t), w.routes[r];
            now.routes == w.routes[r := MovedRoute(route, k, Target(a), t)] && RowsMoved(w, now, r, k, a, t)
  {
    MovedRouteIs(w.routes[r], k, a, t);
  }

  lemma {:induction false} ResourcesAreMoved(threshold: nat, w: World, r: Id, k: nat, a: Action, t: Instant)
    requires Ready(w, Place(r, k)) && RouteIsOpen(w.routes[r]) && Awaits(w.routes[r].stops[k].status, a)
    ensures var now, route := Effect(threshold, w, Place(r, k), Target(a), t), w.routes[r];
            ResourcesMoved(w, now, route, route.status == RoutePlanned, AllDone(MovedRoute(route, k, Target(a), t).stops), t)
  {
    MovedRouteIs(w.routes[r], k, a, t);
  }

  lemma {:induction false} OrdersAreMoved(threshold: nat, w: World, r: Id, k: nat, a: Action, t: Instant)
    requires Ready(w, Place(r, k))
    ensures OrdersMoved(threshold, w.orders, Effect(threshold, w, Place(r, k), Target(a), t).orders,
                        MovedStops(w.routes[r], k, Target(a), t), k, a, t)
  {
    var stop := w.routes[r].stops[k];
    var stops := MovedStops(w.routes[r], k, Target(a), t);
    var advanced := w.orders[stop.orderId := Advanced(w.orders[stop.orderId], stop.kind, Target(a))];
    var now := Effect(threshold, w, Place(r, k), Target(a), t).orders;
    assert now == Recalculated(threshold, stops, RouteDelay(stops, t), advanced, |stops|);
    RecalculatedKeys(threshold, stops, RouteDelay(stops, t), advanced, |stops|);
    AdvancedIs(w.orders[stop.orderId], stop.kind, a);
    forall o | o in w.orders
      ensures now[o].demand == w.orders[o].demand && now[o].windowEnd == w.orders[o].windowEnd
      ensures if o == stop.orderId then OrderMoved(w.orders[o].status, now[o].status, stop.kind, a) else now[o].status == w.orders[o].status
      ensures FlagIs(threshold, stops, w.orders[o], now[o], o, t)
    {
      RecalculatedAt(threshold, stops, RouteDelay(stops, t), advanced, |stops|, o);
      FlagFollows(threshold, stops, t, advanced, o);
      AdvancedFlag(threshold, stops, k, w.orders[stop.orderId], a);
    }
  }

  /** Completing an order clears its flag, but then it has a delivery on the route. */
  lemma {:induction false} AdvancedFlag(threshold: nat, stops: seq<Stop>, k: nat, order: Order, a: Action)
    requires k < |stops|
    ensures NoDelivery(stops, stops[k].orderId) ==> Advanced(order, stops[k].kind, Target(a)).risk == order.risk
  {
  }

  lemma {:induction false} EffectIs(threshold: nat, w: World, r: Id, k: nat, a: Action, t: Instant)
    requires Ready(w, Place(r, k)) && RouteIsOpen(w.routes[r]) && Awaits(w.routes[r].stops[k].status, a)
    ensures Moved(threshold, w, Effect(threshold, w, Place(r, k), Target(a), t), r, k, a, t)
  {
    RowsAreMoved(threshold, w, r, k, a, t);
    ResourcesAreMoved(threshold, w, r, k, a, t);
    OrdersAreMoved(threshold, w, r, k, a, t);
  }

  /** The tables after an action that may happen, column by column: the stop and its times, the route, its
      vehicle, driver and assignment, the status of the order, and the flag of every order by arithmetic
      on the planned and recorded times. */
  lemma {:induction false} ActionIs(threshold: nat, w: World, stopId: Id, r: Id, k: nat, a: Action, t: Instant)
    requires Equipment(w, stopId, r, k)
    ensures if MayHappen(w, r, k, a, t) then Moved(threshold, w, Step(threshold, w, stopId, a, t), r, k, a, t)
            else Step(threshold, w, stopId, a, t) == w
  {
    OutcomeIff(w, stopId, r, k, a, t);
    if MayHappen(w, r, k, a, t) {
      TakenIsReady(w, stopId, r, k, a, t);
      EffectIs(threshold, w, r, k, a, t);
    }
  }
}
