/** A merchant delay meets a stored plan at some point of its execution: the late orders are always
    impacted, and the plan is fit for the new times. */
module MerchantDelays {
  import opened Ordering
  import opened Domain
  import opened Optimization
  import opened Checker
  import opened Feasibility
  import opened Finalizer
  import opened FinalizedPlan
  import opened Execution
  import opened ExecutionInvariants
  import opened DelayPropagation
  import opened ExecutedPlans
  import CapacitySafety
  import Candidate
  import CandidateLaws
  import CandidateActions
  import ReplannedOrders
  import opened RecoveryContext

  // ----- replanning -----

  /** The pickup is an unfinished stop of its route, and its order is a member of the plan. */
  ghost predicate OpenPickup(w: World, members: seq<PlanOrder>, pickup: Stop, r: Id, p: int, d: int) {
    && ServedAt(w, r, p, d, pickup.orderId) && pickup == w.routes[r].stops[p] && pickup.status != Completed
    && PlanOrder(pickup.orderId, pickup.routeId) in members
  }

  /** Whatever has been executed, the order of an unfinished pickup is not picked up, so the merchant's own
      orders are always impacted: a report is replanned exactly when the delay is over ten minutes. */
  lemma {:induction false} LateOrdersAreImpacted(threshold: nat, w: World, calls: seq<Call>, pickups: seq<Stop>, routeStops: seq<Stop>, members: seq<PlanOrder>,
      j: nat, r: Id, p: int, d: int)
    requires Fresh(w) && j < |pickups| && pickups[j].orderId in w.orders && ServedAt(w, r, p, d, pickups[j].orderId)
    requires OpenPickup(Run(threshold, w, calls), members, pickups[j], r, p, d)
    ensures SomeImpacted(pickups, routeStops, members, Run(threshold, w, calls).orders)
  {
    var o := pickups[j].orderId;
    var after := Run(threshold, w, calls);
    OrderStatusFollowsStops(threshold, w, calls, r, p, d, o);
    FreshIsOk(w);
    RunKeepsWorldOk(threshold, w, StartRanks(w), calls);
    assert RouteOk(after.routes[r]);
    FrontierBetween(after.routes[r].stops, Frontier(after.routes[r].stops), p, d);
    var m := PlanOrder(o, pickups[j].routeId);
    assert pickups[j] in pickups && InContext(pickups, routeStops, m);
    assert Impacted(after.orders, o);
  }

  // ----- the planned times of a stored plan -----

  /** The service fits, and a pickup is not before its ready time. */
  ghost predicate Fits(stop: Stop) {
    && stop.plannedArrival + stop.service <= stop.plannedDeparture
    && (stop.kind == Pickup ==> Or(stop.windowStart, 0) <= stop.plannedArrival)
  }

  lemma {:induction false} StopTimes(facts: Facts, theirs: Orders, stops: seq<SolverStop>, routeId: Id, stopId: Id, k: nat, precedence: Option<Id>)
    requires k < |stops| && Honest(theirs, stops, k) && theirs == OrdersById(AsSolverOrders(facts.now, facts.orders))
    ensures stops[k].orderId in PlanningOrdersById(facts.orders)
    ensures Fits(NewStop(PlanningOrdersById(facts.orders)[stops[k].orderId], facts.now, routeId, stopId, stops[k], precedence))
  {
    OrdersAgree(facts.now, facts.orders);
  }

  lemma {:induction false} RouteIsHonest(input: SolverInput, result: SolverResult, i: nat, k: nat)
    requires Certified(input, result) && i < |result.routes| && k < |result.routes[i].stops|
    ensures Honest(OrdersById(input.orders), result.routes[i].stops, k)
  {
    AcceptedIffFeasible(input, result);
    assert FeasibleRoute(input, OrdersById(input.orders), VehiclesById(input.vehicles)[result.routes[i].vehicleId], result.routes[i]);
  }

  /** Every stop of a stored plan fits. */
  lemma {:induction false} StoredStopFits(origin: Origin, i: nat, k: nat)
    requires origin.Ok() && i < |origin.Rows()| && k < |origin.Rows()[i].stops|
    ensures Fits(origin.Rows()[i].stops[k])
  {
    var c, routes := ContextOf(origin.facts, origin.roads, origin.planId), origin.result.routes;
    NewRouteIsFinalized(c, origin.first, routes, i);
    RowIs(c, origin.first, routes, i, k);
    var input := BuildSolverInput(origin.facts, origin.locations, origin.distances, origin.durations);
    RouteIsHonest(input, origin.result, i, k);
    var routeId := RouteIdAt(origin.first, routes, i);
    StopTimes(origin.facts, OrdersById(input.orders), routes[i].stops, routeId, routeId + 1 + k, k, PrecedenceOf(routeId + 1, routes[i].stops, k));
  }

  ghost predicate StopOf(w: World, r: Id, k: int, stop: Stop) {
    r in w.routes && 0 <= k < |w.routes[r].stops| && w.routes[r].stops[k] == stop
  }

  /** The merchant's unfinished pickups. */
  ghost predicate PickupsOf(w: World, merchant: set<Id>, pickups: seq<Stop>) {
    forall stop :: stop in pickups <==>
      stop.kind == Pickup && stop.status != Completed && stop.orderId in merchant && exists r, k :: StopOf(w, r, k, stop)
  }

  lemma {:induction false} ReachedStopFits(origin: Origin, threshold: nat, w: World, calls: seq<Call>, r: Id, k: int, stop: Stop)
    requires origin.Ok() && CapacitySafety.Installed(w, ContextOf(origin.facts, origin.roads, origin.planId), origin.Rows()) && Fresh(w)
    requires StopOf(Run(threshold, w, calls), r, k, stop)
    ensures Fits(stop)
  {
    FreshIsOk(w);
    HistoryIsKept(threshold, w, StartRanks(w), calls);
    assert r in w.routes && RouteExtends(w.routes[r], Run(threshold, w, calls).routes[r]);
    assert StopExtends(w.routes[r].stops[k], stop);
    var i :| 0 <= i < |origin.Rows()| && origin.Rows()[i].id == r;
    StoredStopFits(origin, i, k);
  }

  /** Wherever execution of a stored plan stands, its remaining stops are well planned, so that no stop
      moves by more than the delay. */
  lemma {:induction false} StoredPlanIsWellPlanned(origin: Origin, threshold: nat, w: World, calls: seq<Call>, merchant: set<Id>, pickups: seq<Stop>, remaining: seq<Stop>)
    requires origin.Ok() && CapacitySafety.Installed(w, ContextOf(origin.facts, origin.roads, origin.planId), origin.Rows()) && Fresh(w)
    requires PickupsOf(Run(threshold, w, calls), merchant, pickups)
    requires forall stop :: stop in remaining ==> Remaining(pickups, stop) && exists r, k :: StopOf(Run(threshold, w, calls), r, k, stop)
    ensures WellPlanned(pickups, remaining)
  {
    forall j | 0 <= j < |remaining|
      ensures Fits(remaining[j])
      ensures remaining[j].kind == Pickup && (exists p :: p in pickups && p.orderId == remaining[j].orderId) ==> remaining[j] in pickups
    {
      assert remaining[j] in remaining;
      var r, k :| StopOf(Run(threshold, w, calls), r, k, remaining[j]);
      ReachedStopFits(origin, threshold, w, calls, r, k, remaining[j]);
    }
  }

  // ----- a recovery of the delay -----

  lemma {:induction false} HonestPickupWaits(now: Instant, t: Candidate.Target, theirs: Orders, stops: seq<SolverStop>, k: nat)
    requires k < |stops| && Honest(theirs, stops, k) && stops[k].kind == Pickup
    requires theirs[stops[k].orderId] == Candidate.AsRecoveryOrder(now, t) && CandidateActions.Needs(t, Pickup)
    ensures t.readyAt <= now + stops[k].arrival
  {
  }

  lemma {:induction false} PickupIsNeeded(c: Candidate.Recovery, locations: seq<Id>, distances: Matrix, durations: Matrix, result: SolverResult, s: nat, m: nat)
    requires Certified(Candidate.RecoveryInput(c, locations, distances, durations), result)
    requires s < |result.routes| && m < |result.routes[s].stops| && result.routes[s].stops[m].kind == Pickup
    ensures result.routes[s].stops[m].orderId in Candidate.TargetsById(c.targets)
    ensures CandidateActions.Needs(Candidate.TargetsById(c.targets)[result.routes[s].stops[m].orderId], Pickup)
  {
    CandidateActions.CertifiedServesNeeds(c, locations, distances, durations, result);
    assert CandidateActions.NeedAt(Candidate.TargetsById(c.targets), result.routes[s].stops[m]);
  }

  lemma {:induction false} PickupWaits(c: Candidate.Recovery, locations: seq<Id>, distances: Matrix, durations: Matrix, result: SolverResult, s: nat, m: nat)
    requires Certified(Candidate.RecoveryInput(c, locations, distances, durations), result)
    requires s < |result.routes| && m < |result.routes[s].stops| && result.routes[s].stops[m].kind == Pickup
    ensures result.routes[s].stops[m].orderId in Candidate.TargetsById(c.targets)
    ensures Candidate.TargetsById(c.targets)[result.routes[s].stops[m].orderId].readyAt <= c.now + result.routes[s].stops[m].arrival
  {
    PickupIsNeeded(c, locations, distances, durations, result, s, m);
    CandidateLaws.TargetsAgree(c.now, c.targets);
    RouteIsHonest(Candidate.RecoveryInput(c, locations, distances, durations), result, s, m);
    HonestPickupWaits(c.now, Candidate.TargetsById(c.targets)[result.routes[s].stops[m].orderId], OrdersById(Candidate.AsRecoveryOrders(c.now, c.targets)),
                      result.routes[s].stops, m);
  }

  /** An accepted recovery picks up no order of the delayed merchant before its goods are ready. */
  lemma {:induction false} DelayedPickupsWait(b: Base, ids: set<Id>, c: Candidate.Recovery, locations: seq<Id>, distances: Matrix, durations: Matrix,
      result: SolverResult, s: nat, m: nat)
    requires Certified(Candidate.RecoveryInput(c, locations, distances, durations), result)
    requires FactsOf(b, Ascending(ids), c.targets) && (forall o :: o in b.rows ==> b.rows[o].order.orderId == o) && b.delay.Some?
    requires s < |result.routes| && m < |result.routes[s].stops| && result.routes[s].stops[m].kind == Pickup
    ensures var o := result.routes[s].stops[m].orderId;
            o in b.rows && (b.rows[o].merchantId == b.delay.value.merchantId ==> b.delay.value.readyAt <= c.now + result.routes[s].stops[m].arrival)
  {
    ReplannedOrders.TargetsAre(b, ids, c.targets);
    PickupWaits(c, locations, distances, durations, result, s, m);
  }
}
