/** The recovery of a stored plan knows what is on its vehicles, so its candidate overloads none. */
module RecoveryLoads {
  import opened Ordering
  import opened Domain
  import opened Optimization
  import opened Feasibility
  import opened Finalizer
  import opened FinalizedPlan
  import opened CapacitySafety
  import opened Execution
  import opened ExecutionInvariants
  import Candidate
  import CandidateLaws
  import CandidateReview
  import opened CandidateCapacity
  import opened RecoveryContext
  import RecoveryHistory
  import Protocol
  import opened ExecutedPlans
  import opened ReplannedOrders

  // ----- what the context knows of the plan -----

  ghost predicate StopAt(routes: seq<Route>, r: int, k: int) {
    0 <= r < |routes| && 0 <= k < |routes[r].stops|
  }

  ghost predicate StopKnown(b: Base, routes: seq<Route>, r: int, k: int) {
    exists p, d :: KnownStop(b, routes, r, k, p, d)
  }

  ghost predicate RouteAt(routes: seq<Route>, r: int, route: Route) {
    0 <= r < |routes| && routes[r] == route
  }

  ghost predicate ServedIn(routes: seq<Route>, o: Id) {
    exists r, k :: StopAt(routes, r, k) && routes[r].stops[k].orderId == o
  }

  ghost predicate StopsKnown(b: Base, routes: seq<Route>) {
    forall r, k :: StopAt(routes, r, k) ==> StopKnown(b, routes, r, k)
  }

  ghost predicate RouteKnown(b: Base, routes: seq<Route>, q: Id) {
    q in b.routes && b.routes[q].id == q && exists r :: RouteAt(routes, r, b.routes[q])
  }

  /** Every stop, every route and every order on board. */
  ghost predicate Known(b: Base, routes: seq<Route>) {
    && StopsKnown(b, routes)
    && (forall q :: q in b.routes ==> RouteKnown(b, routes, q))
    && (forall o :: o in b.rows && OnBoard(b.rows[o]) ==> ServedIn(routes, o))
    && RecoveryHistory.SoundPlan(routes)
  }

  lemma {:induction false} StopIsRead(x: Replan, r: nat, k: nat)
    requires x.Ok() && StopAt(x.c.routes, r, k)
    ensures x.c.routes[r].stops[k].orderId in x.b.rows
  {
    var o := x.c.routes[r].stops[k].orderId;
    RouteKeepsId(x, r);
    SolverStopOf(x, r, k);
    PlannedIsStored(x);
    var members := MembersSettle(x);
    OrderIsMember(x, r, k);
  }

  lemma {:induction false} OrderIsMember(x: Replan, r: nat, k: nat)
    requires x.Ok() && r < |x.origin.result.routes| && k < |x.origin.result.routes[r].stops|
    ensures x.origin.result.routes[r].stops[k].orderId in x.b.rows
  {
    var o, g := x.origin.result.routes[r].stops[k].orderId, x.origin;
    PlannedIsStored(x);
    assert RouteFits(x.Tables().orders, x.Tables().pairs[g.result.routes[r].vehicleId], g.result.routes[r]);
    assert StopFits(x.Tables().orders, g.result.routes[r].stops, k);
    PlanningOrderKeys(g.facts.orders);
    var j :| 0 <= j < |g.facts.orders| && g.facts.orders[j].orderId == o;
    MemberOfOrder(x, j);
  }

  lemma {:induction false} MemberOfOrder(x: Replan, j: nat)
    requires x.Ok() && j < |x.origin.facts.orders|
    ensures x.origin.facts.orders[j].orderId in x.b.rows
  {
    var g, c := x.origin, x.Tables();
    MembershipAt(RouteByOrder(g.first, g.result.routes, |g.result.routes|), ReasonByOrder(g.result.unassigned), g.facts.orders, |g.facts.orders|, j);
    var members := NewMemberships(g.facts, g.result, c, g.first);
    assert members[j].orderId == g.facts.orders[j].orderId;
  }

  lemma {:induction false} RoutesAreKnown(x: Replan, q: Id)
    requires x.Ok() && q in x.b.routes
    ensures RouteKnown(x.b, x.c.routes, q)
  {
    PlannedIsStored(x);
    FreshIsOk(x.w);
    HistoryIsKept(x.threshold, x.w, StartRanks(x.w), x.calls);
    assert q in x.w.routes;
    var i :| 0 <= i < |x.RouteIds()| && x.RouteIds()[i] == q;
    RouteKeepsId(x, i);
    assert RouteAt(x.c.routes, i, x.b.routes[q]);
  }

  lemma {:induction false} StopsAreKnown(x: Replan)
    requires x.Ok()
    ensures StopsKnown(x.b, x.c.routes)
  {
    forall r, k | StopAt(x.c.routes, r, k) ensures StopKnown(x.b, x.c.routes, r, k) {
      StopIsRead(x, r, k);
      var p, d := StopOfTarget(x, r, k);
    }
  }

  lemma {:induction false} OnBoardIsServed(x: Replan, o: Id)
    requires x.Ok() && o in x.b.rows && OnBoard(x.b.rows[o])
    ensures ServedIn(x.c.routes, o)
  {
    var r, k := StartedHasStop(x, o);
    assert StopAt(x.c.routes, r, k);
  }

  lemma {:induction false} PlanIsKnown(x: Replan)
    requires x.Ok()
    ensures Known(x.b, x.c.routes)
  {
    PlanOfRecoveryIsSound(x);
    StopsAreKnown(x);
    forall q | q in x.b.routes ensures RouteKnown(x.b, x.c.routes, q) {
      RoutesAreKnown(x, q);
    }
    forall o | o in x.b.rows && OnBoard(x.b.rows[o]) ensures ServedIn(x.c.routes, o) {
      OnBoardIsServed(x, o);
    }
  }

  // ----- a rebuilt route gives up everything unfinished -----

  /** The incident recorded the route each affected order is a member of. */
  ghost predicate ImpactsRead(b: Base) {
    forall o :: Affected(b, o) && o in b.rows ==> b.impacts[o].originalRoute == b.rows[o].routeId
  }

  ghost predicate TargetsRead(b: Base, scope: Scope, targets: set<Id>, facts: seq<Candidate.Target>) {
    && FactsOf(b, Ascending(targets), facts) && (forall o :: o in targets <==> InScope(b, scope, o))
    && (forall o :: o in b.rows ==> b.rows[o].order.orderId == o)
  }

  lemma {:induction false} TargetOfRoute(b: Base, routes: seq<Route>, targets: set<Id>, facts: seq<Candidate.Target>, q: Id) returns (o: Id)
    requires Known(b, routes) && FactsOf(b, Ascending(targets), facts) && q in Candidate.RebuiltIds(facts)
    ensures o in targets && o in b.rows && b.rows[o].routeId == Some(q) && q in b.routes
  {
    var k :| 0 <= k < |facts| && facts[k].originalRoute.Some? && facts[k].originalRoute.value == q;
    AscendingSorts(targets);
    o := Ascending(targets)[k];
    assert o in Ascending(targets);
    assert facts[k] == FactOf(b, o);
    assert RouteKnown(b, routes, b.rows[o].routeId.value);
  }

  /** Every scope takes all unfinished orders of a route or none. */
  lemma {:induction false} UnfinishedComeAlong(b: Base, scope: Scope, t: Id, o: Id)
    requires ImpactsRead(b) && InScope(b, scope, t) && t in b.rows && b.rows[t].routeId.Some?
    requires Unfinished(b, o) && b.rows[o].routeId == b.rows[t].routeId
    ensures InScope(b, scope, o)
  {
    if Affected(b, t) {
      assert OnAffectedRoute(b, b.rows[o].routeId);
    }
  }

  lemma {:induction false} OpenStopIsUnfinished(b: Base, routes: seq<Route>, r: nat, k: nat)
    requires Known(b, routes) && StopAt(routes, r, k) && routes[r].stops[k].status != Completed
    ensures Unfinished(b, routes[r].stops[k].orderId) && b.rows[routes[r].stops[k].orderId].routeId == Some(routes[r].id)
  {
    assert StopKnown(b, routes, r, k);
    var p, d :| KnownStop(b, routes, r, k, p, d);
    assert RecoveryHistory.BaseOk(routes[r]);
    assert routes[r].stops[d].status != Completed;
  }

  lemma {:induction false} RouteGivesUpAll(b: Base, scope: Scope, targets: set<Id>, c: Candidate.Recovery, r: nat)
    requires Known(b, c.routes) && ImpactsRead(b) && TargetsRead(b, scope, targets, c.targets) && r < |c.routes|
    ensures GivesUpAll(c, c.routes[r])
  {
    TargetsAre(b, targets, c.targets);
    if c.routes[r].id in Candidate.RebuiltIds(c.targets) {
      var t := TargetOfRoute(b, c.routes, targets, c.targets, c.routes[r].id);
      forall k | 0 <= k < |c.routes[r].stops| && c.routes[r].stops[k].status != Completed ensures c.routes[r].stops[k].orderId in targets {
        OpenStopIsUnfinished(b, c.routes, r, k);
        UnfinishedComeAlong(b, scope, t, c.routes[r].stops[k].orderId);
      }
    }
  }

  // ----- who carries what -----

  /** The orders of a route that are on board by their stored status. */
  ghost function OnBoardOf(b: Base, route: Route): set<Id> {
    set k | 0 <= k < |route.stops| && route.stops[k].orderId in b.rows && OnBoard(b.rows[route.stops[k].orderId]) :: route.stops[k].orderId
  }

  /** Goods to be handed over are on a vehicle that gets nothing new. */
  ghost predicate HandoversParked(b: Base, targets: set<Id>, vehicles: seq<Candidate.VehicleFact>) {
    forall o :: o in targets && o in b.rows && HandsOver(b, o) && HasRoute(b, b.rows[o]) ==>
      b.routes[b.rows[o].routeId.value].vehicleId !in Candidate.VehicleFactsById(vehicles)
  }

  lemma {:induction false} StopNamesRoute(b: Base, routes: seq<Route>, r: nat, k: nat)
    requires Known(b, routes) && StopAt(routes, r, k)
    ensures routes[r].stops[k].orderId in b.rows && b.rows[routes[r].stops[k].orderId].routeId == Some(routes[r].id)
    ensures routes[r].id in b.routes && b.routes[routes[r].id] == routes[r]
  {
    assert StopKnown(b, routes, r, k);
    var p, d :| KnownStop(b, routes, r, k, p, d);
  }

  lemma {:induction false} CarriedIsOnBoard(b: Base, routes: seq<Route>, targets: set<Id>, r: nat, o: Id)
    requires Known(b, routes) && r < |routes| && o in RecoveryContext.Carried(b, targets, routes[r].vehicleId)
    ensures o in OnBoardOf(b, routes[r]) && routes[r].id in b.routes && FactOf(b, o).originalRoute == Some(routes[r].id)
  {
    assert ServedIn(routes, o);
    var q, k :| StopAt(routes, q, k) && routes[q].stops[k].orderId == o;
    StopNamesRoute(b, routes, q, k);
    assert routes[q].vehicleId == routes[r].vehicleId;
    assert q == r;
  }

  lemma {:induction false} OnBoardIsCarried(b: Base, scope: Scope, targets: set<Id>, c: Candidate.Recovery, r: nat, o: Id)
    requires Known(b, c.routes) && ImpactsRead(b) && TargetsRead(b, scope, targets, c.targets) && HandoversParked(b, targets, c.vehicles)
    requires r < |c.routes| && c.routes[r].id in Candidate.RebuiltIds(c.targets) && o in OnBoardOf(b, c.routes[r])
    requires c.routes[r].vehicleId in Candidate.VehicleFactsById(c.vehicles)
    ensures o in RecoveryContext.Carried(b, targets, c.routes[r].vehicleId)
  {
    var k :| 0 <= k < |c.routes[r].stops| && c.routes[r].stops[k].orderId == o;
    StopNamesRoute(b, c.routes, r, k);
    var t := TargetOfRoute(b, c.routes, targets, c.targets, c.routes[r].id);
    UnfinishedComeAlong(b, scope, t, o);
    TargetsAre(b, targets, c.targets);
    assert !HandsOver(b, o);
  }

  lemma {:induction false} CarriedOfRoute(b: Base, scope: Scope, targets: set<Id>, c: Candidate.Recovery, r: nat)
    requires Known(b, c.routes) && ImpactsRead(b) && TargetsRead(b, scope, targets, c.targets) && HandoversParked(b, targets, c.vehicles)
    requires r < |c.routes| && c.routes[r].vehicleId in Candidate.VehicleFactsById(c.vehicles)
    ensures RecoveryContext.Carried(b, targets, c.routes[r].vehicleId)
            == if c.routes[r].id in Candidate.RebuiltIds(c.targets) then OnBoardOf(b, c.routes[r]) else {}
  {
    var carried, v := RecoveryContext.Carried(b, targets, c.routes[r].vehicleId), c.routes[r].vehicleId;
    forall o | o in carried ensures o in OnBoardOf(b, c.routes[r]) && c.routes[r].id in Candidate.RebuiltIds(c.targets) {
      CarriedIsOnBoard(b, c.routes, targets, r, o);
      TargetRouteIsRebuilt(b, targets, c.targets, o);
    }
    if c.routes[r].id in Candidate.RebuiltIds(c.targets) {
      forall o | o in OnBoardOf(b, c.routes[r]) ensures o in carried {
        OnBoardIsCarried(b, scope, targets, c, r, o);
      }
    }
  }

  lemma {:induction false} CarrierHasRoute(b: Base, routes: seq<Route>, targets: set<Id>, v: Id, o: Id)
    requires Known(b, routes) && o in RecoveryContext.Carried(b, targets, v)
    ensures v in Candidate.BaseVehicles(routes)
  {
    assert RouteKnown(b, routes, b.rows[o].routeId.value);
    var r :| RouteAt(routes, r, b.routes[b.rows[o].routeId.value]);
    assert routes[r].vehicleId == v;
  }

  lemma {:induction false} CarriedByNobody(b: Base, routes: seq<Route>, targets: set<Id>, v: Id)
    requires Known(b, routes) && v !in Candidate.BaseVehicles(routes)
    ensures RecoveryContext.Carried(b, targets, v) == {}
  {
    forall o | o in RecoveryContext.Carried(b, targets, v) ensures false {
      CarrierHasRoute(b, routes, targets, v, o);
    }
  }

  // ----- what is on board, by the stops -----

  lemma {:induction false} TotalAlike(x: map<nat, int>, y: map<nat, int>, s: set<nat>)
    requires s <= x.Keys && s <= y.Keys && forall o :: o in s ==> x[o] == y[o]
    ensures Total(x, s) == Total(y, s)
    decreases |s|
  {
    if s != {} { TotalAlike(x, y, s - {Least(s)}); }
  }

  lemma {:induction false} NothingAboardAtTheEnd(orders: map<Id, PlanningOrder>, stops: seq<SolverStop>)
    requires AllFit(orders, stops)
    ensures Cargo(orders, stops, |stops|) == 0
  {
    CargoIsTheOrdersAboard(orders, stops, |stops|);
    assert AboardSet(stops, |stops|) == {};
  }

  /** The cargo of a row during execution is that of its solver route. */
  lemma {:induction false} RunCargo(x: Replan, r: nat, n: nat)
    requires x.Ok() && r < |x.c.routes| && n <= |x.c.routes[r].stops|
    ensures r < |x.origin.result.routes| && n <= |x.origin.result.routes[r].stops| == |x.c.routes[r].stops|
    ensures RowCargo(x.c.routes[r].stops, n) == Cargo(x.Tables().orders, x.origin.result.routes[r].stops, n)
  {
    PlannedIsStored(x);
    RouteKeepsId(x, r);
    PlanIsKept(x, r);
    OriginRow(x.origin, r);
    var before, after := x.origin.Rows()[r], x.c.routes[r];
    StoredCargo(x.Tables().orders, before.stops, x.origin.result.routes[r].stops, n);
    forall k | 0 <= k < n ensures after.stops[k].kind == before.stops[k].kind && after.stops[k].demand == before.stops[k].demand {
      assert SameStop(before.stops[k], after.stops[k]);
    }
    SameCargo(before.stops, after.stops, n);
  }

  lemma {:induction false} PlanIsKept(x: Replan, r: nat)
    requires x.Ok() && r < |x.c.routes|
    ensures r < |x.origin.Rows()| && RouteKept(x.origin.Rows()[r], x.c.routes[r])
  {
    OriginIsSound(x.origin);
    PlannedRoutesAreRows(x);
    RowsStay(x.threshold, x.w, x.calls, x.RouteIds());
    assert RouteKept(PlanRoutes(x.w, x.RouteIds())[r], PlanRoutes(x.After(), x.RouteIds())[r]);
  }

  lemma {:induction false} TransitIsOnBoard(b: Base, w: World, route: Route, rid: Id)
    requires rid in w.routes && w.routes[rid] == route && OrdersRead(b, w)
    requires forall k :: 0 <= k < |route.stops| ==> route.stops[k].orderId in b.rows
    ensures InTransit(w, rid) == OnBoardOf(b, route)
  {
    forall k | 0 <= k < |route.stops|
      ensures route.stops[k].orderId in w.orders && b.rows[route.stops[k].orderId].status == w.orders[route.stops[k].orderId].status
    {
      assert OrderRead(b.rows[route.stops[k].orderId], w, route.stops[k].orderId);
    }
  }

  lemma {:induction false} OnBoardWeighs(b: Base, w: World, s: set<Id>)
    requires OrdersRead(b, w) && s <= b.rows.Keys
    ensures s <= RowDemands(b).Keys && s <= StoredDemands(w).Keys && Total(RowDemands(b), s) == Total(StoredDemands(w), s)
  {
    forall o | o in s ensures o in w.orders && RowDemands(b)[o] == StoredDemands(w)[o] {
      assert OrderRead(b.rows[o], w, o);
    }
    TotalAlike(RowDemands(b), StoredDemands(w), s);
  }

  lemma {:induction false} OrdersAreRead(x: Replan)
    requires x.Ok()
    ensures OrdersRead(x.b, x.After())
  {
  }

  /** What the executed stops of a row leave on the vehicle weighs what its orders on board weigh. */
  lemma {:induction false} CargoIsOnBoard(x: Replan, r: nat)
    requires x.Ok() && r < |x.c.routes|
    ensures OnBoardOf(x.b, x.c.routes[r]) <= RowDemands(x.b).Keys
    ensures RowCargo(x.c.routes[r].stops, Frontier(x.c.routes[r].stops)) == Total(RowDemands(x.b), OnBoardOf(x.b, x.c.routes[r]))
    ensures RowCargo(x.c.routes[r].stops, |x.c.routes[r].stops|) == 0
  {
    PlannedIsStored(x);
    RouteKeepsId(x, r);
    var route, rid := x.c.routes[r], x.RouteIds()[r];
    RunCargo(x, r, |route.stops|);
    RouteFitsAll(x, r);
    NothingAboardAtTheEnd(x.Tables().orders, x.origin.result.routes[r].stops);
    RunCargo(x, r, Frontier(route.stops));
    StoredPlanIsSafe(x.threshold, x.w, x.Tables(), x.RouteIds(), x.origin.result, x.calls, r);
    OrdersAreRead(x);
    forall k | 0 <= k < |route.stops| ensures route.stops[k].orderId in x.b.rows {
      StopIsRead(x, r, k);
    }
    TransitIsOnBoard(x.b, x.After(), route, rid);
    OnBoardWeighs(x.b, x.After(), OnBoardOf(x.b, route));
  }

  lemma {:induction false} RouteFitsAll(x: Replan, r: nat)
    requires x.Planned() && r < |x.origin.result.routes|
    ensures AllFit(x.Tables().orders, x.origin.result.routes[r].stops)
  {
    PlannedIsStored(x);
    assert RouteFits(x.Tables().orders, x.Tables().pairs[x.origin.result.routes[r].vehicleId], x.origin.result.routes[r]);
  }

  // ----- the loads of a recovery -----

  /** Initial loads are those of `OnboardLoads`, and a vehicle has the capacity its route was stored with. */
  ghost predicate VehiclesRead(c: Candidate.Recovery) {
    forall v :: v in Candidate.VehicleFactsById(c.vehicles) ==>
      && Candidate.VehicleFactsById(c.vehicles)[v].initialLoad == LoadOn(c.targets, v)
      && forall r :: 0 <= r < |c.routes| && c.routes[r].vehicleId == v ==> Candidate.VehicleFactsById(c.vehicles)[v].capacity == c.routes[r].capacity
  }

  lemma {:induction false} LoadIsCarried(b: Base, targets: set<Id>, facts: seq<Candidate.Target>, v: Id)
    requires FactsOf(b, Ascending(targets), facts)
    ensures RecoveryContext.Carried(b, targets, v) <= RowDemands(b).Keys
    ensures LoadOn(facts, v) == Total(RowDemands(b), RecoveryContext.Carried(b, targets, v))
  {
    AscendingSorts(targets);
    assert Elements(Ascending(targets)) == targets;
    LoadIsTheOrdersCarried(b, Ascending(targets), facts, v);
  }

  lemma {:induction false} RouteLoadIsReal(x: Replan, r: nat)
    requires x.Ok() && r < |x.c.routes| && ImpactsRead(x.b) && VehiclesRead(x.c) && HandoversParked(x.b, x.targets, x.c.vehicles)
    ensures LoadIsReal(x.c, x.c.routes[r]) && GivesUpAll(x.c, x.c.routes[r])
  {
    FactsAreRead(x);
    PlanIsKnown(x);
    RouteGivesUpAll(x.b, x.scope, x.targets, x.c, r);
    CargoIsOnBoard(x, r);
    KnownLoadIsReal(x.b, x.scope, x.targets, x.c, r);
  }

  lemma {:induction false} KnownLoadIsReal(b: Base, scope: Scope, targets: set<Id>, c: Candidate.Recovery, r: nat)
    requires Known(b, c.routes) && ImpactsRead(b) && TargetsRead(b, scope, targets, c.targets) && HandoversParked(b, targets, c.vehicles)
    requires r < |c.routes| && VehiclesRead(c) && GivesUpAll(c, c.routes[r])
    requires OnBoardOf(b, c.routes[r]) <= RowDemands(b).Keys
    requires RowCargo(c.routes[r].stops, Frontier(c.routes[r].stops)) == Total(RowDemands(b), OnBoardOf(b, c.routes[r]))
    requires RowCargo(c.routes[r].stops, |c.routes[r].stops|) == 0
    ensures LoadIsReal(c, c.routes[r])
  {
    var base := c.routes[r];
    if base.vehicleId in Candidate.VehicleFactsById(c.vehicles) {
      LoadIsCarried(b, targets, c.targets, base.vehicleId);
      CarriedOfRoute(b, scope, targets, c, r);
      assert RecoveryHistory.BaseOk(base);
      KeptCargo(c, base);
    }
  }

  lemma {:induction false} KeptCargo(c: Candidate.Recovery, base: Route)
    requires RecoveryHistory.BaseOk(base) && GivesUpAll(c, base)
    ensures RowCargo(KeptOf(c, base), |KeptOf(c, base)|)
            == RowCargo(base.stops, if base.id in Candidate.RebuiltIds(c.targets) then Frontier(base.stops) else |base.stops|)
  {
    if base.id in Candidate.RebuiltIds(c.targets) {
      SurvivorsArePrefix(base.stops, Candidate.TargetsById(c.targets).Keys);
      SameCargo(base.stops, KeptOf(c, base), Frontier(base.stops));
    }
  }

  /** The recovery of a stored plan knows what is on every vehicle it may use, if the goods to be handed
      over are on none of them. */
  lemma {:induction false} RecoveryIsTruthful(x: Replan)
    requires x.Ok() && ImpactsRead(x.b) && VehiclesRead(x.c) && HandoversParked(x.b, x.targets, x.c.vehicles)
    ensures Truthful(x.c)
  {
    forall r | 0 <= r < |x.c.routes| ensures LoadIsReal(x.c, x.c.routes[r]) && GivesUpAll(x.c, x.c.routes[r]) {
      RouteLoadIsReal(x, r);
    }
    PlanIsKnown(x);
    FactsAreRead(x);
    forall v | v in Candidate.VehicleFactsById(x.c.vehicles) && v !in Candidate.BaseVehicles(x.c.routes)
      ensures Candidate.VehicleFactsById(x.c.vehicles)[v].initialLoad == 0
    {
      LoadIsCarried(x.b, x.targets, x.c.targets, v);
      CarriedByNobody(x.b, x.c.routes, x.targets, v);
    }
  }

  /** However far a stored plan has been executed: no row of the candidate of a certified recovery
      overloads its vehicle on any prefix of its stops, handovers included, and no run of stop
      actions on the candidate ever does. */
  lemma {:induction false} CandidateNeverOverloads(x: Replan, answer: Answer, threshold: nat, w: World, ids: seq<Id>, calls: seq<Call>)
    requires x.Ok() && ImpactsRead(x.b) && VehiclesRead(x.c) && HandoversParked(x.b, x.targets, x.c.vehicles)
    requires answer.Ok() && answer.f.c == x.c
    requires RowsIn(w, ids) && PlanRoutes(w, ids) == answer.Rows()
    ensures PlanWithin(answer.Rows())
    ensures RowsIn(Run(threshold, w, calls), ids) && PlanWithin(PlanRoutes(Run(threshold, w, calls), ids))
  {
    RecoveryIsTruthful(x);
    PlanOfRecoveryIsSound(x);
    PlanOfRecoveryIsWithin(x);
    CandidateIsWithin(answer);
    AnswerRowsAreOk(answer);
    RowsStay(threshold, w, calls, ids);
    KeptWithin(answer.Rows(), PlanRoutes(Run(threshold, w, calls), ids));
  }

  lemma {:induction false} PlanOfRecoveryIsWithin(x: Replan)
    requires x.Ok()
    ensures PlanWithin(x.c.routes)
  {
    OriginIsSound(x.origin);
    OriginIsWithin(x.origin);
    PlannedRoutesAreRows(x);
    RowsStay(x.threshold, x.w, x.calls, x.RouteIds());
    KeptWithin(x.origin.Rows(), x.c.routes);
  }
}
