/** What a recovery is about, told from the rows it is read from: which orders, in which form, which
    vehicles, and the problem the solver is given. */
module ContextMeaning {
  import opened Ordering
  import opened Domain
  import opened Optimization
  import opened Finalizer
  import opened Candidate
  import opened RecoveryContext
  import Protocol

  // ----- which orders -----

  /** The report of the incident says that the order is to be replanned. */
  ghost predicate IsReported(b: Base, o: Id) {
    o in b.impacts && b.impacts[o].requiresReplanning
  }

  /** A member that is not delivered yet. */
  ghost predicate IsOpen(b: Base, o: Id) {
    && o in b.rows
    && (b.rows[o].status == OrderPlanned || b.rows[o].status == PickupInProgress || b.rows[o].status == PickedUp || b.rows[o].status == Delivering)
  }

  ghost predicate SharesRoute(b: Base, o: Id, p: Id) {
    && o in b.rows && b.rows[o].routeId.Some?
    && p in b.impacts && b.impacts[p].requiresReplanning && b.impacts[p].originalRoute == b.rows[o].routeId
  }

  ghost predicate IsUnderWay(b: Base, o: Id) {
    && o in b.rows && b.rows[o].routeId.Some? && b.rows[o].routeId.value in b.routes
    && b.routes[b.rows[o].routeId.value].vehicleId in b.activeVehicles
  }

  /** The narrow scope covers the reported orders and the open ones on their routes; the next one adds the open
      orders on routes of active vehicles; the widest covers every open order. */
  lemma {:induction false} ScopesCover(b: Base, o: Id)
    ensures InScope(b, Protocol.AffectedRoute, o) <==> IsReported(b, o) || (IsOpen(b, o) && exists p :: SharesRoute(b, o, p))
    ensures InScope(b, Protocol.CrossRoute, o) <==>
              IsReported(b, o) || (IsOpen(b, o) && (IsUnderWay(b, o) || exists p :: SharesRoute(b, o, p)))
    ensures InScope(b, Protocol.AllRemaining, o) <==> IsReported(b, o) || IsOpen(b, o)
  {
    if o in b.rows {
      if p :| SharesRoute(b, o, p) { assert OnAffectedRoute(b, b.rows[o].routeId); }
      if OnAffectedRoute(b, b.rows[o].routeId) {
        var p :| p in b.impacts && b.impacts[p].requiresReplanning && b.impacts[p].originalRoute == b.rows[o].routeId;
        assert SharesRoute(b, o, p);
      }
    }
  }

  // ----- in which form -----

  /** Its goods are on the vehicle and stay there. */
  ghost predicate StaysOnBoard(b: Base, o: Id) {
    o in b.rows && (b.rows[o].status == PickedUp || b.rows[o].status == Delivering) && !(o in b.impacts && b.impacts[o].handover)
  }

  ghost predicate OnRouteOf(b: Base, o: Id, r: Id) {
    o in b.rows && b.rows[o].routeId == Some(r) && r in b.routes
  }

  /** An order that is no member, that is on board of no known vehicle, or that is to be handed over nowhere
      stands in the way. */
  lemma {:induction false} ObstacleIff(b: Base, o: Id)
    ensures Obstacle(b, o) == Some(NotAMember) <==> o !in b.rows
    ensures Obstacle(b, o) == Some(NoExecutingRoute) <==> StaysOnBoard(b, o) && forall r :: !OnRouteOf(b, o, r)
    ensures Obstacle(b, o) == Some(NoHandoverPlace) <==>
              o in b.rows && o in b.impacts && b.impacts[o].handover && b.incidentLocation == None
    ensures Obstacle(b, o) != Some(NothingToReplan)
  {
    if o in b.rows && b.rows[o].routeId.Some? {
      assert b.rows[o].routeId.value in b.routes <==> OnRouteOf(b, o, b.rows[o].routeId.value);
    }
  }

  ghost predicate IsCovered(b: Base, scope: Scope, o: Id) {
    || IsReported(b, o)
    || (IsOpen(b, o) && (scope == Protocol.AllRemaining || (scope == Protocol.CrossRoute && IsUnderWay(b, o)) || exists p :: SharesRoute(b, o, p)))
  }

  ghost predicate StandsInTheWay(b: Base, o: Id) {
    || o !in b.rows
    || (StaysOnBoard(b, o) && forall r :: !OnRouteOf(b, o, r))
    || (o in b.impacts && b.impacts[o].handover && b.incidentLocation == None)
  }

  /** A scope cannot be worked on exactly when no order was reported or one it covers stands in the way. */
  lemma {:induction false} ObstructedIff(b: Base, scope: Scope)
    ensures Obstructed(b, scope) <==> (forall o :: !IsReported(b, o)) || exists o :: IsCovered(b, scope, o) && StandsInTheWay(b, o)
  {
    forall o: Id
      ensures (Affected(b, o) <==> IsReported(b, o)) && (InScope(b, scope, o) <==> IsCovered(b, scope, o))
      ensures Obstacle(b, o).Some? <==> StandsInTheWay(b, o)
    {
      ScopesCover(b, o);
      ObstacleIff(b, o);
    }
    if o: Id :| IsCovered(b, scope, o) && StandsInTheWay(b, o) { assert InScope(b, scope, o) && Obstacle(b, o).Some?; }
    if o: Id :| InScope(b, scope, o) && Obstacle(b, o).Some? { assert IsCovered(b, scope, o) && StandsInTheWay(b, o); }
    if o: Id :| IsReported(b, o) { assert Affected(b, o); }
    if o: Id :| Affected(b, o) { assert IsReported(b, o); }
  }

  /** The target of an order: as planned, except for what the incident changes. */
  ghost predicate TargetTells(b: Base, o: Id, t: Target)
    requires o in b.rows
  {
    var row := b.rows[o];
    && t.orderId == row.order.orderId && t.pickup == row.order.pickup && t.delivery == row.order.delivery
    && t.pickupService == row.order.pickupService && t.deliveryService == row.order.deliveryService
    && t.windowStart == row.order.windowStart && t.windowEnd == row.order.windowEnd && t.demand == row.order.demand
    && (if b.delay.Some? && b.delay.value.merchantId == row.merchantId then t.readyAt == b.delay.value.readyAt else t.readyAt == row.order.readyAt)
    && (if o in b.impacts && b.impacts[o].handover then t.handover == b.incidentLocation else t.handover == None)
    && (forall r :: OnRouteOf(b, o, r) ==>
         t.originalRoute == Some(b.routes[r].id) && t.requiredVehicle == if StaysOnBoard(b, o) then Some(b.routes[r].vehicleId) else None)
    && ((forall r :: !OnRouteOf(b, o, r)) ==> t.originalRoute == None && t.requiredVehicle == None)
  }

  lemma {:induction false} TargetIs(b: Base, o: Id)
    requires Obstacle(b, o) == None
    ensures o in b.rows && TargetTells(b, o, FactOf(b, o))
  {
    var row := b.rows[o];
    if row.routeId.Some? {
      assert row.routeId.value in b.routes <==> OnRouteOf(b, o, row.routeId.value);
    }
  }

  // ----- the problem -----

  /** Seconds from now, and none for what is past. */
  ghost predicate From(now: Instant, t: Instant, seconds: int) {
    seconds == if t <= now then 0 else t - now
  }

  /** Goods on board are delivered, goods to be handed over are taken on where the vehicle broke down, the rest
      is picked up. */
  ghost predicate OrderPosed(now: Instant, t: Target, s: SolverOrder) {
    && s.orderId == t.orderId && s.delivery == t.delivery && s.deliveryService == t.deliveryService && s.demand == t.demand
    && s.requiredVehicle == t.requiredVehicle
    && From(now, t.windowStart, s.windowStart) && From(now, t.windowEnd, s.windowEnd)
    && if t.handover.Some? then
         s.pickup == None && s.handover == t.handover && s.handoverService == t.pickupService && s.pickupService == 0 && s.ready == 0
       else
         && s.handover == None && s.handoverService == 0 && From(now, t.readyAt, s.ready)
         && (if t.requiredVehicle.Some? then s.pickup == None && s.pickupService == 0
             else s.pickup == Some(t.pickup) && s.pickupService == t.pickupService)
  }

  ghost predicate VehiclePosed(now: Instant, v: VehicleFact, s: SolverVehicle) {
    && s.vehicleId == v.vehicleId && s.capacity == v.capacity && s.start == v.start && s.initialLoad == v.initialLoad
    && From(now, v.from, s.availableFrom) && From(now, v.until, s.availableUntil)
  }

  ghost predicate OrdersPosed(now: Instant, targets: seq<Target>, posed: seq<SolverOrder>) {
    |posed| == |targets| && forall i :: 0 <= i < |targets| ==> OrderPosed(now, targets[i], posed[i])
  }

  ghost predicate VehiclesPosed(now: Instant, vehicles: seq<VehicleFact>, posed: seq<SolverVehicle>) {
    |posed| == |vehicles| && forall i :: 0 <= i < |vehicles| ==> VehiclePosed(now, vehicles[i], posed[i])
  }

  lemma {:induction false} OrdersArePosed(now: Instant, targets: seq<Target>)
    ensures OrdersPosed(now, targets, AsRecoveryOrders(now, targets))
  {
    if targets != [] { OrdersArePosed(now, targets[..|targets| - 1]); }
  }

  lemma {:induction false} VehiclesArePosed(now: Instant, vehicles: seq<VehicleFact>)
    ensures VehiclesPosed(now, vehicles, AsRecoveryVehicles(now, vehicles))
  {
    if vehicles != [] { VehiclesArePosed(now, vehicles[..|vehicles| - 1]); }
  }

  /** The solver is asked about the targets and the usable vehicles, in their order. */
  lemma {:induction false} ProblemIsPosed(c: Recovery, locations: seq<Id>, distances: Matrix, durations: Matrix)
    ensures var input := RecoveryInput(c, locations, distances, durations);
            && OrdersPosed(c.now, c.targets, input.orders) && VehiclesPosed(c.now, c.vehicles, input.vehicles)
            && input.frozen == [] && input.locations == locations && input.distances == distances && input.durations == durations
  {
    OrdersArePosed(c.now, c.targets);
    VehiclesArePosed(c.now, c.vehicles);
  }

  // ----- which vehicles -----

  /** The period ends with the last window and its service. */
  ghost predicate IsPlanningEnd(facts: seq<Target>, end: Instant) {
    && (forall k :: 0 <= k < |facts| ==> facts[k].windowEnd + facts[k].deliveryService <= end)
    && exists k :: 0 <= k < |facts| && facts[k].windowEnd + facts[k].deliveryService == end
  }

  lemma {:induction false} PlanningEndIs(facts: seq<Target>)
    requires facts != []
    ensures IsPlanningEnd(facts, RecoveryContext.PlanningEnd(facts))
  {
    forall k | 0 <= k < |facts| ensures facts[k].windowEnd + facts[k].deliveryService <= RecoveryContext.PlanningEnd(facts) { EndIsLatest(facts, k); }
    EndIsLatest(facts, 0);
  }

  /** The vehicle of a route that a reported order was on. */
  ghost predicate DrivesReported(b: Base, v: Id, r: Id, p: Id) {
    && r in b.routes && b.routes[r].vehicleId == v
    && p in b.impacts && b.impacts[p].requiresReplanning && b.impacts[p].originalRoute == Some(r)
  }

  /** A vehicle can be used when it and its driver are fit and on duty between now and the end of the period,
      and in the narrow scope only if a reported order was on its route. */
  lemma {:induction false} UsableIff(b: Base, scope: Scope, end: Instant, d: Duty)
    ensures Usable(b, scope, end, d) <==>
              && d.usable && d.from <= end
              && (if d.until.Some? then b.now < d.until.value else b.now <= end)
              && (scope == Protocol.AffectedRoute ==> exists r, p :: DrivesReported(b, d.vehicleId, r, p))
  {
    if r, p :| DrivesReported(b, d.vehicleId, r, p) {
      assert OnAffectedRoute(b, Some(r));
    }
    if r :| r in b.routes && OnAffectedRoute(b, Some(r)) && b.routes[r].vehicleId == d.vehicleId {
      var p :| p in b.impacts && b.impacts[p].requiresReplanning && b.impacts[p].originalRoute == Some(r);
      assert DrivesReported(b, d.vehicleId, r, p);
    }
  }

  /** The goods on board when the recovery starts, target by target. */
  ghost predicate LoadCounted(facts: seq<Target>, v: Id, load: seq<int>) {
    && |load| == |facts| + 1 && load[0] == 0
    && forall k :: 0 <= k < |facts| ==> LoadCountedAt(facts, v, load, k)
  }

  ghost predicate LoadCountedAt(facts: seq<Target>, v: Id, load: seq<int>, k: nat)
    requires k < |facts| && k + 1 < |load|
  {
    load[k + 1] == if facts[k].requiredVehicle == Some(v) then load[k] + facts[k].demand else load[k]
  }

  lemma {:induction false} LoadIs(facts: seq<Target>, v: Id, load: seq<int>, n: nat)
    requires LoadCounted(facts, v, load) && n <= |facts|
    ensures load[n] == LoadOn(facts[..n], v)
  {
    if 0 < n {
      LoadIs(facts, v, load, n - 1);
      assert facts[..n][..n - 1] == facts[..n - 1] && LoadCountedAt(facts, v, load, n - 1);
    } else {
      assert facts[..0] == [];
    }
  }

  /** The vehicle as the solver gets it: from now at the earliest, to the end of its duty or of the period, with
      the goods that stay on it. */
  ghost predicate VehicleTells(b: Base, facts: seq<Target>, d: Duty, v: VehicleFact) {
    && v.assignmentId == d.assignmentId && v.vehicleId == d.vehicleId && v.driverId == d.driverId
    && v.capacity == d.capacity && v.start == d.start
    && v.from == (if d.from < b.now then b.now else d.from)
    && (d.until.Some? ==> v.until == d.until.value)
    && (d.until == None ==> IsPlanningEnd(facts, v.until))
    && forall load :: LoadCounted(facts, d.vehicleId, load) ==> v.initialLoad == load[|facts|]
  }

  lemma {:induction false} VehicleIs(b: Base, facts: seq<Target>, d: Duty)
    requires facts != []
    ensures VehicleTells(b, facts, d, VehicleFactFor(b, facts, d))
  {
    PlanningEndIs(facts);
    assert facts[..|facts|] == facts;
    forall load | LoadCounted(facts, d.vehicleId, load) ensures load[|facts|] == LoadOn(facts, d.vehicleId) {
      LoadIs(facts, d.vehicleId, load, |facts|);
    }
  }

  /** The duties that are used, in their order. */
  ghost predicate UsedDuties(b: Base, scope: Scope, facts: seq<Target>, duties: seq<Duty>, used: seq<nat>)
    requires facts != []
  {
    && (forall i: nat :: i in used <==> i < |duties| && Usable(b, scope, RecoveryContext.PlanningEnd(facts), duties[i]))
    && forall j, k :: 0 <= j < k < |used| ==> used[j] < used[k]
  }

  ghost predicate VehiclesTell(b: Base, facts: seq<Target>, duties: seq<Duty>, used: seq<nat>, vehicles: seq<VehicleFact>) {
    && |vehicles| == |used|
    && forall j :: 0 <= j < |used| ==> used[j] < |duties| && VehicleTells(b, facts, duties[used[j]], vehicles[j])
  }

  /** Every usable vehicle on duty is there once, and no other. */
  lemma {:induction false} VehiclesAre(b: Base, scope: Scope, facts: seq<Target>, duties: seq<Duty>) returns (used: seq<nat>)
    requires facts != []
    ensures UsedDuties(b, scope, facts, duties, used) && VehiclesTell(b, facts, duties, used, VehicleFactsFor(b, scope, facts, duties))
  {
    if duties == [] {
      used := [];
    } else {
      var n := |duties| - 1;
      used := VehiclesAre(b, scope, facts, duties[..n]);
      forall j | 0 <= j < |used| ensures used[j] < n { assert used[j] in used; }
      if Usable(b, scope, RecoveryContext.PlanningEnd(facts), duties[n]) {
        VehicleIs(b, facts, duties[n]);
        used := used + [n];
      }
    }
  }
}
