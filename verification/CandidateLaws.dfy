/** Candidate routes are well formed, and building one from an accepted result never fails a
    lookup. */
module CandidateLaws {
  import opened Ordering
  import opened Domain
  import opened Optimization
  import opened Checker
  import opened Feasibility
  import opened Finalizer
  import opened FinalizedPlan
  import opened Candidate

  // ----- what survives of a base route -----

  predicate Survives(stop: Stop, targets: set<Id>) {
    stop.orderId !in targets || stop.status == Completed
  }

  /** Where base stop b lands among the survivors. */
  function Position(stops: seq<Stop>, targets: set<Id>, b: nat): nat
    requires b <= |stops|
  {
    |Surviving(stops[..b], targets)|
  }

  lemma {:induction false} SurvivingOneMore(stops: seq<Stop>, targets: set<Id>, b: nat)
    requires b < |stops|
    ensures Surviving(stops[..b + 1], targets) ==
              Surviving(stops[..b], targets) + if Survives(stops[b], targets) then [stops[b]] else []
  {
    assert stops[..b + 1][..b] == stops[..b];
  }

  lemma {:induction false} SurvivingPrefix(stops: seq<Stop>, targets: set<Id>, b: nat)
    requires b <= |stops|
    ensures Position(stops, targets, b) <= |Surviving(stops, targets)|
    ensures Surviving(stops, targets)[..Position(stops, targets, b)] == Surviving(stops[..b], targets)
    decreases |stops| - b
  {
    if b == |stops| {
      assert stops[..b] == stops;
    } else {
      SurvivingPrefix(stops, targets, b + 1);
      SurvivingOneMore(stops, targets, b);
      var all, n := Surviving(stops, targets), Position(stops, targets, b + 1);
      assert all[..n][..Position(stops, targets, b)] == all[..Position(stops, targets, b)];
    }
  }

  lemma {:induction false} SurvivorAt(stops: seq<Stop>, targets: set<Id>, b: nat)
    requires b < |stops| && Survives(stops[b], targets)
    ensures Position(stops, targets, b) < |Surviving(stops, targets)|
    ensures Surviving(stops, targets)[Position(stops, targets, b)] == stops[b]
  {
    SurvivingOneMore(stops, targets, b);
    SurvivingPrefix(stops, targets, b + 1);
    var all, n := Surviving(stops, targets), Position(stops, targets, b + 1);
    assert all[..n][n - 1] == all[n - 1];
  }

  lemma {:induction false} SurvivorBelow(stops: seq<Stop>, targets: set<Id>, n: nat, i: nat) returns (b: nat)
    requires n <= |stops| && i < Position(stops, targets, n)
    ensures b < n && Survives(stops[b], targets) && Position(stops, targets, b) == i
  {
    SurvivingOneMore(stops, targets, n - 1);
    if i < Position(stops, targets, n - 1) {
      b := SurvivorBelow(stops, targets, n - 1, i);
    } else {
      b := n - 1;
    }
  }

  lemma {:induction false} SurvivorFrom(stops: seq<Stop>, targets: set<Id>, i: nat) returns (b: nat)
    requires i < |Surviving(stops, targets)|
    ensures b < |stops| && Survives(stops[b], targets) && Position(stops, targets, b) == i
    ensures Surviving(stops, targets)[i] == stops[b]
  {
    assert stops[..|stops|] == stops;
    b := SurvivorBelow(stops, targets, |stops|, i);
    SurvivorAt(stops, targets, b);
  }

  lemma {:induction false} PositionsIncrease(stops: seq<Stop>, targets: set<Id>, p: nat, b: nat)
    requires p < b <= |stops| && Survives(stops[p], targets)
    ensures Position(stops, targets, p) < Position(stops, targets, b)
    decreases b
  {
    SurvivingOneMore(stops, targets, b - 1);
    if p < b - 1 { PositionsIncrease(stops, targets, p, b - 1); }
  }

  lemma {:induction false} AllSurvive(stops: seq<Stop>)
    ensures Surviving(stops, {}) == stops
  {
    if stops != [] { AllSurvive(stops[..|stops| - 1]); }
  }

  /** A route that is not rebuilt loses nothing. */
  function Lost(base: Route, targets: set<Id>, rebuilt: set<Id>): set<Id> {
    if base.id in rebuilt then targets else {}
  }

  lemma {:induction false} PreservedSurvive(base: Route, targets: set<Id>, rebuilt: set<Id>)
    ensures Preserved(base, targets, rebuilt) == Surviving(base.stops, Lost(base, targets, rebuilt))
  {
    AllSurvive(base.stops);
  }

  // ----- the rows of a spliced route -----

  lemma {:induction false} CopyAt(preserved: seq<Stop>, routeId: Id, n: nat, i: nat)
    requires i < n <= |preserved|
    ensures Copies(preserved, routeId, n)[i] ==
              CopyOf(preserved[i], routeId, routeId + 1 + i, i + 1,
                     Renamed(CopiedIds(preserved, routeId + 1, i), preserved[i].precedence))
  {
    if i < n - 1 { CopyAt(preserved, routeId, n - 1, i); }
  }

  lemma {:induction false} FreshAt(s: Splice, routeId: Id, n: nat, m: nat)
    requires m < n <= |s.added| && s.Known(n)
    ensures s.FreshRows(routeId, n)[m] ==
              FreshStop(s.now, s.incidentId, s.targets[s.added[m].orderId], routeId, routeId + |s.preserved| + m + 1,
                        |s.preserved| + m + 1, s.added[m], FreshPrecedence(s.preserved, s.added, routeId + 1, m))
  {
    if m < n - 1 { FreshAt(s, routeId, n - 1, m); }
  }

  /** The order and kind of row q, before it is written. */
  function OrderAt(s: Splice, q: nat): Id
    requires q < |s.preserved| + |s.added|
  {
    if q < |s.preserved| then s.preserved[q].orderId else s.added[q - |s.preserved|].orderId
  }

  function KindAt(s: Splice, q: nat): StopKind
    requires q < |s.preserved| + |s.added|
  {
    if q < |s.preserved| then s.preserved[q].kind else s.added[q - |s.preserved|].kind
  }

  /** Every row keeps its order and kind and gets the next id and number. */
  lemma {:induction false} RowAt(s: Splice, routeId: Id, q: nat)
    requires s.Known(|s.added|) && q < |s.preserved| + |s.added|
    ensures var row := s.Rows(routeId)[q];
            && row.id == routeId + 1 + q && row.sequenceNo == q + 1 && row.routeId == routeId
            && row.orderId == OrderAt(s, q) && row.kind == KindAt(s, q)
  {
    if q < |s.preserved| {
      CopyAt(s.preserved, routeId, |s.preserved|, q);
    } else {
      FreshAt(s, routeId, |s.added|, q - |s.preserved|);
    }
  }

  lemma {:induction false} CopiedIdOf(preserved: seq<Stop>, first: Id, n: nat, j: nat)
    requires j < n <= |preserved|
    requires forall i, k :: 0 <= i < k < |preserved| ==> preserved[i].id != preserved[k].id
    ensures preserved[j].id in CopiedIds(preserved, first, n) && CopiedIds(preserved, first, n)[preserved[j].id] == first + j
  {
    if j < n - 1 { CopiedIdOf(preserved, first, n - 1, j); }
  }

  /** The origin found for an order is the row of an earlier origin stop of that order. */
  lemma {:induction false} OriginIdIs(s: Splice, first: Id, n: nat, m: nat, o: Id) returns (q: nat)
    requires n <= |s.preserved| && m <= |s.added| && (0 < m ==> n == |s.preserved|)
    requires o in OriginIds(s.preserved, s.added, first, n, m)
    ensures q < n + m && OriginIds(s.preserved, s.added, first, n, m)[o] == first + q
    ensures OrderAt(s, q) == o && KindAt(s, q) != Delivery
    decreases m, n
  {
    if 0 < m {
      if s.added[m - 1].kind != Delivery && s.added[m - 1].orderId == o {
        q := n + m - 1;
      } else {
        q := OriginIdIs(s, first, n, m - 1, o);
      }
    } else if s.preserved[n - 1].kind != Delivery && s.preserved[n - 1].orderId == o {
      q := n - 1;
    } else {
      q := OriginIdIs(s, first, n - 1, 0, o);
    }
  }

  /** A delivery names an earlier origin stop of its order on its route. */
  ghost predicate Linked(stops: seq<Stop>, i: nat)
    requires i < |stops|
  {
    if stops[i].kind == Delivery then
      exists p :: 0 <= p < i && stops[i].precedence == Some(stops[p].id) && stops[p].orderId == stops[i].orderId && stops[p].kind != Delivery
    else stops[i].precedence == None
  }

  /** Numbered 1..n, linked, and exactly the handovers carry an incident. */
  ghost predicate WellFormed(stops: seq<Stop>) {
    && (forall i :: 0 <= i < |stops| ==> stops[i].sequenceNo == i + 1)
    && (forall i :: 0 <= i < |stops| ==> Linked(stops, i))
    && (forall i :: 0 <= i < |stops| ==> (stops[i].kind == Handover <==> stops[i].incident.Some?))
  }

  /** What execution keeps of a stored route: stops are completed in order. */
  ghost predicate ExecutedInOrder(stops: seq<Stop>) {
    && (forall i, j :: 0 <= i < j < |stops| && stops[j].status == Completed ==> stops[i].status == Completed)
    && (forall i, j :: 0 <= i < j < |stops| ==> stops[i].id != stops[j].id)
  }

  lemma {:induction false} SurvivorsAreDistinct(stops: seq<Stop>, targets: set<Id>)
    requires ExecutedInOrder(stops)
    ensures var kept := Surviving(stops, targets); forall i, j :: 0 <= i < j < |kept| ==> kept[i].id != kept[j].id
  {
    var kept := Surviving(stops, targets);
    forall i, j | 0 <= i < j < |kept| ensures kept[i].id != kept[j].id {
      var b := SurvivorFrom(stops, targets, i);
      var d := SurvivorFrom(stops, targets, j);
      assert b != d;
    }
  }

  /** When a delivery survives so does the stop it names, further up. */
  lemma {:induction false} LinkSurvives(stops: seq<Stop>, targets: set<Id>, i: nat) returns (j: nat)
    requires WellFormed(stops) && ExecutedInOrder(stops)
    requires i < |Surviving(stops, targets)| && Surviving(stops, targets)[i].kind == Delivery
    ensures var kept := Surviving(stops, targets);
            && j < i && kept[i].precedence == Some(kept[j].id) && kept[j].orderId == kept[i].orderId && kept[j].kind != Delivery
            && (kept[i].status == Completed ==> kept[j].status == Completed)
  {
    var b := SurvivorFrom(stops, targets, i);
    assert Linked(stops, b);
    var p :| 0 <= p < b && stops[b].precedence == Some(stops[p].id) && stops[p].orderId == stops[b].orderId && stops[p].kind != Delivery;
    assert Survives(stops[p], targets);
    SurvivorAt(stops, targets, p);
    PositionsIncrease(stops, targets, p, b);
    j := Position(stops, targets, p);
  }

  lemma {:induction false} CopyIsLinked(s: Splice, routeId: Id, stops: seq<Stop>, targets: set<Id>, i: nat)
    requires WellFormed(stops) && ExecutedInOrder(stops) && s.preserved == Surviving(stops, targets)
    requires s.Known(|s.added|) && i < |s.preserved|
    ensures Linked(s.Rows(routeId), i)
    ensures s.Rows(routeId)[i].incident == s.preserved[i].incident
  {
    CopyAt(s.preserved, routeId, |s.preserved|, i);
    if s.preserved[i].kind == Delivery {
      var j := LinkSurvives(stops, targets, i);
      SurvivorsAreDistinct(stops, targets);
      CopiedIdOf(s.preserved, routeId + 1, i, j);
      RowAt(s, routeId, j);
      assert s.Rows(routeId)[i].precedence == Some(s.Rows(routeId)[j].id);
    } else {
      var b := SurvivorFrom(stops, targets, i);
      assert Linked(stops, b);
    }
  }

  lemma {:induction false} FreshIsLinked(s: Splice, routeId: Id, m: nat)
    requires s.Ok() && s.Known(|s.added|) && m < |s.added|
    ensures Linked(s.Rows(routeId), |s.preserved| + m)
    ensures var row := s.Rows(routeId)[|s.preserved| + m]; row.kind == Handover <==> row.incident.Some?
  {
    FreshAt(s, routeId, |s.added|, m);
    assert FreshOk(s.targets, s.preserved, s.added, m);
    if s.added[m].kind == Delivery {
      var o := s.added[m].orderId;
      OriginIdKeys(s.preserved, s.added, routeId + 1, |s.preserved|, m);
      var q := OriginIdIs(s, routeId + 1, |s.preserved|, m, o);
      RowAt(s, routeId, q);
      RowAt(s, routeId, |s.preserved| + m);
      assert s.Rows(routeId)[|s.preserved| + m].precedence == Some(s.Rows(routeId)[q].id);
    }
  }

  lemma {:induction false} KnownWhenOk(s: Splice)
    requires s.Ok()
    ensures s.Known(|s.added|)
  {
    forall k | 0 <= k < |s.added| ensures s.added[k].orderId in s.targets {
      assert FreshOk(s.targets, s.preserved, s.added, k);
    }
  }

  /** Splicing is well formed: whatever base route the survivors come from and whatever new
      stops follow, the written route is numbered 1..n, every delivery names an earlier origin
      stop of its order on this route, and exactly the handovers carry an incident. */
  lemma {:induction false} SplicedRoutesAreWellFormed(s: Splice, routeId: Id, stops: seq<Stop>, targets: set<Id>)
    requires WellFormed(stops) && ExecutedInOrder(stops) && s.preserved == Surviving(stops, targets) && s.Ok()
    ensures s.Known(|s.added|) && WellFormed(s.Rows(routeId))
  {
    KnownWhenOk(s);
    var rows := s.Rows(routeId);
    forall q | 0 <= q < |rows|
      ensures rows[q].sequenceNo == q + 1 && Linked(rows, q) && (rows[q].kind == Handover <==> rows[q].incident.Some?)
    {
      RowAt(s, routeId, q);
      if q < |s.preserved| {
        CopyIsLinked(s, routeId, stops, targets, q);
        var b := SurvivorFrom(stops, targets, q);
      } else {
        FreshIsLinked(s, routeId, q - |s.preserved|);
      }
    }
  }

  // ----- lookups never fail -----

  lemma {:induction false} TargetsAgree(now: Instant, targets: seq<Target>)
    ensures var mine, theirs := TargetsById(targets), OrdersById(AsRecoveryOrders(now, targets));
            && mine.Keys == theirs.Keys
            && forall o :: o in mine ==> theirs[o] == AsRecoveryOrder(now, mine[o]) && mine[o].orderId == o && mine[o] in targets
    ensures |AsRecoveryOrders(now, targets)| == |targets|
    ensures forall i :: 0 <= i < |targets| ==> AsRecoveryOrders(now, targets)[i] == AsRecoveryOrder(now, targets[i])
  {
    if targets != [] {
      TargetsAgree(now, targets[..|targets| - 1]);
      var all := AsRecoveryOrders(now, targets);
      assert all[..|all| - 1] == AsRecoveryOrders(now, targets[..|targets| - 1]);
    }
  }

  lemma {:induction false} FactsAgree(now: Instant, vehicles: seq<VehicleFact>)
    ensures var mine, theirs := VehicleFactsById(vehicles), VehiclesById(AsRecoveryVehicles(now, vehicles));
            && mine.Keys == theirs.Keys
            && forall v :: v in mine ==> theirs[v] == AsRecoveryVehicle(now, mine[v]) && mine[v].vehicleId == v
  {
    if vehicles != [] {
      FactsAgree(now, vehicles[..|vehicles| - 1]);
      var all := AsRecoveryVehicles(now, vehicles);
      assert all[..|all| - 1] == AsRecoveryVehicles(now, vehicles[..|vehicles| - 1]);
    }
  }

  /** The stop serves a target: as its delivery, either after its origin or on the vehicle that
      has the goods on board. */
  ghost predicate StopServes(targets: map<Id, Target>, vehicleId: Id, stops: seq<SolverStop>, k: nat)
    requires k < |stops|
  {
    && stops[k].orderId in targets
    && (stops[k].kind == Delivery ==>
         || targets[stops[k].orderId].requiredVehicle == Some(vehicleId)
         || exists p :: 0 <= p < k && stops[p].orderId == stops[k].orderId && stops[p].kind != Delivery)
  }

  ghost predicate RouteServes(targets: map<Id, Target>, route: SolverRoute) {
    forall k :: 0 <= k < |route.stops| ==> StopServes(targets, route.vehicleId, route.stops, k)
  }

  lemma {:induction false} FeasibleStopServes(c: Recovery, orders: Orders, vehicle: SolverVehicle, stops: seq<SolverStop>, k: nat)
    requires orders == OrdersById(AsRecoveryOrders(c.now, c.targets)) && k < |stops| && stops[k].orderId in orders
    requires Carried(orders[stops[k].orderId], vehicle, stops)
    ensures StopServes(TargetsById(c.targets), vehicle.vehicleId, stops, k)
  {
    TargetsAgree(c.now, c.targets);
    var o := stops[k].orderId;
    var order := AsRecoveryOrder(c.now, TargetsById(c.targets)[o]);
    assert order == orders[o];
    if !order.DeliveryOnly() {
      var p, d :| OnlyAtBoth(stops, o, p, d)
        && IsStopOf(stops[p], order, order.OriginKind(), order.Origin().value) && IsStopOf(stops[d], order, Delivery, order.delivery);
      assert stops[k].kind == Delivery ==> p < k;
    }
  }

  lemma {:induction false} FeasibleRouteServes(c: Recovery, input: SolverInput, vehicle: SolverVehicle, route: SolverRoute)
    requires input.MatricesFit() && input.orders == AsRecoveryOrders(c.now, c.targets)
    requires vehicle.vehicleId == route.vehicleId && vehicle.start in input.locations
    requires FeasibleRoute(input, OrdersById(input.orders), vehicle, route)
    ensures RouteServes(TargetsById(c.targets), route)
  {
    var orders, stops := OrdersById(input.orders), route.stops;
    forall k | 0 <= k < |stops| ensures StopServes(TargetsById(c.targets), route.vehicleId, stops, k) {
      assert Honest(orders, stops, k);
      assert stops[k].orderId in Served(orders, stops);
      FeasibleStopServes(c, orders, vehicle, stops, k);
    }
  }

  ghost function KeptOf(c: Recovery, base: Option<Route>): seq<Stop> {
    if base == None then [] else Preserved(base.value, TargetsById(c.targets).Keys, RebuiltIds(c.targets))
  }

  /** The route of the vehicle that must deliver the order keeps the stop that loaded it. */
  ghost predicate LoadedOn(c: Recovery, t: Target) {
    exists r, j ::
      && 0 <= r < |c.routes| && Some(c.routes[r].vehicleId) == t.requiredVehicle && 0 <= j < |KeptOf(c, Some(c.routes[r]))|
      && KeptOf(c, Some(c.routes[r]))[j].orderId == t.orderId && KeptOf(c, Some(c.routes[r]))[j].kind != Delivery
  }

  ghost predicate GoodsAreLoaded(c: Recovery) {
    forall t :: t in c.targets && t.requiredVehicle.Some? ==> LoadedOn(c, t)
  }

  /** A completed origin is always kept. */
  lemma {:induction false} CompletedOriginIsLoaded(c: Recovery, t: Target, r: nat, k: nat)
    requires r < |c.routes| && Some(c.routes[r].vehicleId) == t.requiredVehicle && k < |c.routes[r].stops|
    requires var s := c.routes[r].stops[k]; s.orderId == t.orderId && s.kind != Delivery && s.status == Completed
    ensures LoadedOn(c, t)
  {
    var base := c.routes[r];
    var lost := Lost(base, TargetsById(c.targets).Keys, RebuiltIds(c.targets));
    PreservedSurvive(base, TargetsById(c.targets).Keys, RebuiltIds(c.targets));
    SurvivorAt(base.stops, lost, k);
    assert KeptOf(c, Some(base))[Position(base.stops, lost, k)] == base.stops[k];
  }

  ghost predicate ResultServes(c: Recovery, routes: seq<SolverRoute>) {
    forall i :: 0 <= i < |routes| ==> routes[i].vehicleId in VehicleFactsById(c.vehicles) && RouteServes(TargetsById(c.targets), routes[i])
  }

  lemma {:induction false} CertifiedServes(c: Recovery, locations: seq<Id>, distances: Matrix, durations: Matrix, result: SolverResult)
    requires Certified(RecoveryInput(c, locations, distances, durations), result)
    ensures ResultServes(c, result.routes)
  {
    var input := RecoveryInput(c, locations, distances, durations);
    AcceptedIffFeasible(input, result);
    FactsAgree(c.now, c.vehicles);
    var facts, vehicles := VehicleFactsById(c.vehicles), VehiclesById(input.vehicles);
    forall i | 0 <= i < |result.routes|
      ensures result.routes[i].vehicleId in facts && RouteServes(TargetsById(c.targets), result.routes[i])
    {
      var v := result.routes[i].vehicleId;
      assert vehicles[v] == AsRecoveryVehicle(c.now, facts[v]);
      FeasibleRouteServes(c, input, vehicles[v], result.routes[i]);
    }
  }

  /** An origin among the survivors is on record. */
  lemma {:induction false} KeptOriginIsKnown(preserved: seq<Stop>, added: seq<SolverStop>, n: nat, m: nat, j: nat)
    requires j < n <= |preserved| && m <= |added| && (0 < m ==> n == |preserved|) && preserved[j].kind != Delivery
    ensures preserved[j].orderId in OriginIds(preserved, added, 0, n, m)
    decreases m, n
  {
    if 0 < m { KeptOriginIsKnown(preserved, added, n, m - 1, j); }
    else if j < n - 1 { KeptOriginIsKnown(preserved, added, n - 1, 0, j); }
  }

  lemma {:induction false} NewOriginIsKnown(preserved: seq<Stop>, added: seq<SolverStop>, m: nat, p: nat)
    requires p < m <= |added| && added[p].kind != Delivery
    ensures added[p].orderId in OriginIds(preserved, added, 0, |preserved|, m)
  {
    if p < m - 1 { NewOriginIsKnown(preserved, added, m - 1, p); }
  }

  /** The base route, if any, is the only one of the vehicle. */
  ghost predicate BaseOf(c: Recovery, base: Option<Route>, vehicleId: Id) {
    if base.Some? then base.value in c.routes && base.value.vehicleId == vehicleId
    else forall r :: 0 <= r < |c.routes| ==> c.routes[r].vehicleId != vehicleId
  }

  lemma {:induction false} LoadedOriginIsKnown(c: Recovery, base: Option<Route>, t: Target, vehicleId: Id, added: seq<SolverStop>, m: nat)
    requires LoadedOn(c, t) && t.requiredVehicle == Some(vehicleId) && OneRoutePerVehicle(c.routes)
    requires BaseOf(c, base, vehicleId) && m <= |added|
    ensures t.orderId in OriginIds(KeptOf(c, base), added, 0, |KeptOf(c, base)|, m)
  {
    var r, j :| 0 <= r < |c.routes| && Some(c.routes[r].vehicleId) == t.requiredVehicle && 0 <= j < |KeptOf(c, Some(c.routes[r]))|
      && KeptOf(c, Some(c.routes[r]))[j].orderId == t.orderId && KeptOf(c, Some(c.routes[r]))[j].kind != Delivery;
    assert base == Some(c.routes[r]);
    KeptOriginIsKnown(KeptOf(c, base), added, |KeptOf(c, base)|, m, j);
  }

  /** New stop m finds its target and, when it delivers, its origin. */
  lemma {:induction false} StopIsSpliceable(c: Recovery, base: Option<Route>, route: SolverRoute, m: nat)
    requires RouteServes(TargetsById(c.targets), route) && m < |route.stops| && GoodsAreLoaded(c) && OneRoutePerVehicle(c.routes)
    requires BaseOf(c, base, route.vehicleId)
    ensures FreshOk(TargetsById(c.targets), KeptOf(c, base), route.stops, m)
  {
    var targets := TargetsById(c.targets);
    assert StopServes(targets, route.vehicleId, route.stops, m);
    var o := route.stops[m].orderId;
    if route.stops[m].kind == Delivery {
      if targets[o].requiredVehicle == Some(route.vehicleId) {
        TargetsAgree(c.now, c.targets);
        LoadedOriginIsKnown(c, base, targets[o], route.vehicleId, route.stops, m);
      } else {
        var p :| 0 <= p < m && route.stops[p].orderId == o && route.stops[p].kind != Delivery;
        NewOriginIsKnown(KeptOf(c, base), route.stops, m, p);
      }
    }
  }

  lemma {:induction false} RoutesByVehicleIs(routes: seq<SolverRoute>)
    ensures forall v :: v in RoutesByVehicle(routes) ==> RoutesByVehicle(routes)[v].vehicleId == v && RoutesByVehicle(routes)[v] in routes
  {
    if routes != [] { RoutesByVehicleIs(routes[..|routes| - 1]); }
  }

  ghost predicate Prepared(f: Frame, routes: seq<SolverRoute>) {
    ResultServes(f.c, routes) && NoEmptyRoute(routes) && GoodsAreLoaded(f.c) && OneRoutePerVehicle(f.c.routes)
  }

  lemma {:induction false} SolverJobIsBuildable(f: Frame, routes: seq<SolverRoute>, base: Option<Route>, route: SolverRoute)
    requires Prepared(f, routes) && route in routes && BaseOf(f.c, base, route.vehicleId)
    ensures f.Buildable(Job(base, Some(route)))
  {
    var i :| 0 <= i < |routes| && routes[i] == route;
    var job := Job(base, Some(route));
    var s := f.SpliceOf(job);
    forall m | 0 <= m < |s.added| ensures FreshOk(s.targets, s.preserved, s.added, m) {
      StopIsSpliceable(f.c, base, route, m);
    }
  }

  lemma {:induction false} BaseJobIsBuildable(f: Frame, routes: seq<SolverRoute>, base: Route)
    requires Prepared(f, routes) && base in f.c.routes
    ensures var job := BaseJob(base, RoutesByVehicle(routes)); f.Skipped(job) || f.Buildable(job)
  {
    RoutesByVehicleIs(routes);
    var job := BaseJob(base, RoutesByVehicle(routes));
    if job.solver.Some? {
      SolverJobIsBuildable(f, routes, Some(base), job.solver.value);
    }
  }

  lemma {:induction false} BaseDraftIsWritten(f: Frame, routes: seq<SolverRoute>, first: Id, n: nat)
    requires Prepared(f, routes) && n <= |f.c.routes|
    ensures BaseDraft(f, RoutesByVehicle(routes), first, n).Written?
  {
    if 0 < n {
      BaseDraftIsWritten(f, routes, first, n - 1);
      BaseJobIsBuildable(f, routes, f.c.routes[n - 1]);
    }
  }

  lemma {:induction false} LeftoverDraftIsWritten(f: Frame, routes: seq<SolverRoute>, base: Draft, n: nat)
    requires Prepared(f, routes) && base.Written? && n <= |routes|
    ensures LeftoverDraft(f, routes, base, n).Written?
  {
    if 0 < n {
      LeftoverDraftIsWritten(f, routes, base, n - 1);
      if routes[n - 1].vehicleId !in BaseVehicles(f.c.routes) {
        SolverJobIsBuildable(f, routes, None, routes[n - 1]);
      }
    }
  }

  // ----- and only then -----

  /** A fully assigned result carries every target; one that stays on its vehicle has no stop but
      its delivery, on that vehicle. */
  ghost predicate DroppedAt(routes: seq<SolverRoute>, t: Target, i: int, d: int) {
    && 0 <= i < |routes| && Some(routes[i].vehicleId) == t.requiredVehicle
    && OnlyAt(routes[i].stops, t.orderId, d) && routes[i].stops[d].kind == Delivery
  }

  lemma {:induction false} BoardedOrder(c: Recovery, input: SolverInput, t: Target)
    requires input.Valid() && input.orders == AsRecoveryOrders(c.now, c.targets) && t in c.targets && t.requiredVehicle.Some?
    ensures var orders := OrdersById(input.orders);
            t.orderId in orders && orders[t.orderId] == AsRecoveryOrder(c.now, t) && orders[t.orderId].DeliveryOnly()
  {
    TargetsAgree(c.now, c.targets);
    var k :| 0 <= k < |c.targets| && c.targets[k] == t;
    OrdersByIdIs(input.orders);
    assert input.orders[k].Valid();
  }

  lemma {:induction false} CarriedIsDropped(routes: seq<SolverRoute>, t: Target, i: nat, order: SolverOrder, vehicle: SolverVehicle) returns (d: nat)
    requires i < |routes| && order.DeliveryOnly() && order.orderId == t.orderId && order.requiredVehicle == t.requiredVehicle
    requires vehicle.vehicleId == routes[i].vehicleId && Carried(order, vehicle, routes[i].stops)
    ensures DroppedAt(routes, t, i, d)
  {
    var e :| OnlyAt(routes[i].stops, t.orderId, e) && IsStopOf(routes[i].stops[e], order, Delivery, order.delivery);
    d := e;
  }

  lemma {:induction false} BoardedTargetIsDropped(c: Recovery, locations: seq<Id>, distances: Matrix, durations: Matrix, result: SolverResult, t: Target)
    returns (i: nat, d: nat)
    requires Certified(RecoveryInput(c, locations, distances, durations), result) && result.unassigned == []
    requires t in c.targets && t.requiredVehicle.Some?
    ensures DroppedAt(result.routes, t, i, d)
  {
    var input := RecoveryInput(c, locations, distances, durations);
    AcceptedIffFeasible(input, result);
    BoardedOrder(c, input, t);
    var orders, vehicles := OrdersById(input.orders), VehiclesById(input.vehicles);
    assert SettledOnce(result, t.orderId);
    var r :| OnRoute(result.routes, r, t.orderId);
    i := r;
    OnRouteIsServed(orders, result.routes, i, t.orderId);
    VehiclesByIdIs(input.vehicles);
    var vehicle := vehicles[result.routes[i].vehicleId];
    assert FeasibleRoute(input, orders, vehicle, result.routes[i]);
    d := CarriedIsDropped(result.routes, t, i, orders[t.orderId], vehicle);
  }

  lemma {:induction false} RouteOfVehicle(routes: seq<SolverRoute>, i: nat)
    requires i < |routes| && forall j, k :: 0 <= j < k < |routes| ==> routes[j].vehicleId != routes[k].vehicleId
    ensures routes[i].vehicleId in RoutesByVehicle(routes) && RoutesByVehicle(routes)[routes[i].vehicleId] == routes[i]
  {
    if i < |routes| - 1 { RouteOfVehicle(routes[..|routes| - 1], i); }
  }

  lemma {:induction false} WrittenBaseWasBuildable(f: Frame, byVehicle: map<Id, SolverRoute>, first: Id, n: nat, r: nat)
    requires r < n <= |f.c.routes| && BaseDraft(f, byVehicle, first, n).Written?
    ensures var job := BaseJob(f.c.routes[r], byVehicle); f.Skipped(job) || f.Buildable(job)
  {
    if r < n - 1 { WrittenBaseWasBuildable(f, byVehicle, first, n - 1, r); }
  }

  lemma {:induction false} WrittenLeftoverWasBuildable(f: Frame, routes: seq<SolverRoute>, base: Draft, n: nat, i: nat)
    requires i < n <= |routes| && LeftoverDraft(f, routes, base, n).Written? && routes[i].vehicleId !in BaseVehicles(f.c.routes)
    ensures f.Buildable(Job(None, Some(routes[i])))
  {
    if i < n - 1 { WrittenLeftoverWasBuildable(f, routes, base, n - 1, i); }
  }

  /** A delivery whose lookup succeeded, with no origin among the new stops, had one kept. */
  lemma {:induction false} FoundOriginWasKept(f: Frame, base: Option<Route>, route: SolverRoute, o: Id, d: nat) returns (j: nat)
    requires f.Buildable(Job(base, Some(route))) && OnlyAt(route.stops, o, d) && route.stops[d].kind == Delivery
    ensures j < |KeptOf(f.c, base)| && KeptOf(f.c, base)[j].orderId == o && KeptOf(f.c, base)[j].kind != Delivery
  {
    var s := f.SpliceOf(Job(base, Some(route)));
    assert FreshOk(s.targets, s.preserved, s.added, d);
    j := OriginIdIs(s, 0, |s.preserved|, d, o);
  }

  lemma {:induction false} WrittenMeansLoaded(f: Frame, result: SolverResult, first: Id, t: Target, i: nat, d: nat)
    requires FinalDraft(f, result, first).Written? && DroppedAt(result.routes, t, i, d)
    requires forall j, k :: 0 <= j < k < |result.routes| ==> result.routes[j].vehicleId != result.routes[k].vehicleId
    ensures LoadedOn(f.c, t)
  {
    var route, byVehicle := result.routes[i], RoutesByVehicle(result.routes);
    var base := BaseDraft(f, byVehicle, first, |f.c.routes|);
    if base == Failed {
      LeftoverStaysFailed(f, result.routes, base, 0, |result.routes|);
    }
    RouteOfVehicle(result.routes, i);
    if route.vehicleId in BaseVehicles(f.c.routes) {
      var r :| 0 <= r < |f.c.routes| && f.c.routes[r].vehicleId == route.vehicleId;
      WrittenBaseWasBuildable(f, byVehicle, first, |f.c.routes|, r);
      var j := FoundOriginWasKept(f, Some(f.c.routes[r]), route, t.orderId, d);
    } else {
      WrittenLeftoverWasBuildable(f, result.routes, base, |result.routes|, i);
      var j := FoundOriginWasKept(f, None, route, t.orderId, d);
    }
  }

  /** The candidate of a certified, fully assigned result without empty routes can be written
      exactly when every order that stays on its vehicle was loaded there: the route of that
      vehicle keeps an origin stop of it.  An order that was handed over in an approved plan but
      not yet re-loaded has none, and its lookup fails. */
  lemma {:induction false} LookupsSucceedIffGoodsAreLoaded(f: Frame, locations: seq<Id>, distances: Matrix, durations: Matrix, result: SolverResult, first: Id)
    requires Certified(RecoveryInput(f.c, locations, distances, durations), result) && result.unassigned == []
    requires NoEmptyRoute(result.routes) && OneRoutePerVehicle(f.c.routes)
    ensures FinalDraft(f, result, first).Written? <==> GoodsAreLoaded(f.c)
  {
    if GoodsAreLoaded(f.c) {
      CertifiedServes(f.c, locations, distances, durations, result);
      BaseDraftIsWritten(f, result.routes, first, |f.c.routes|);
      LeftoverDraftIsWritten(f, result.routes, BaseDraft(f, RoutesByVehicle(result.routes), first, |f.c.routes|), |result.routes|);
    }
    if FinalDraft(f, result, first).Written? {
      AcceptedIffFeasible(RecoveryInput(f.c, locations, distances, durations), result);
      forall t | t in f.c.targets && t.requiredVehicle.Some? ensures LoadedOn(f.c, t) {
        var i, d := BoardedTargetIsDropped(f.c, locations, distances, durations, result, t);
        WrittenMeansLoaded(f, result, first, t, i, d);
      }
    }
  }
}
