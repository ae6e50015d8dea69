/** Building a candidate plan after an incident: the executed part of every route is copied with
    new ids and the new solver stops are appended to it. */
module Candidate {
  import opened Ordering
  import opened Domain
  import opened Optimization
  import opened Finalizer

  /** An order to be replanned. */
  datatype Target = Target(
    orderId: Id,
    pickup: Id,
    delivery: Id,
    readyAt: Instant,
    pickupService: int,
    windowStart: Instant,
    windowEnd: Instant,
    deliveryService: int,
    demand: int,
    originalRoute: Option<Id>,
    handover: Option<Id>,
    requiredVehicle: Option<Id>)

  datatype VehicleFact = VehicleFact(
    assignmentId: Id,
    vehicleId: Id,
    driverId: Id,
    capacity: int,
    initialLoad: int,
    start: Id,
    from: Instant,
    until: Instant)

  /** A base membership: its route, or why it has none. */
  datatype Member = Member(orderId: Id, routeId: Option<Id>, reason: Option<nat>)

  datatype Recovery = Recovery(
    incidentId: Id,
    brokenRoute: Option<Id>,
    incidentLocation: Option<Id>,
    basePlanId: Id,
    group: Id,
    now: Instant,
    targets: seq<Target>,
    vehicles: seq<VehicleFact>,
    routes: seq<Route>,
    members: seq<Member>)

  // ----- the recovery input -----

  /** The order of a target: goods already picked up stay on their vehicle unless they are
      handed over. */
  function TargetOf(o: PlanningOrder, status: OrderStatus, route: Option<Route>, handover: Option<Id>): Target {
    var deliveryOnly := status in {PickedUp, Delivering} && handover == None;
    Target(o.orderId, o.pickup, o.delivery, o.readyAt, o.pickupService, o.windowStart, o.windowEnd, o.deliveryService, o.demand,
           if route.Some? then Some(route.value.id) else None, handover,
           if deliveryOnly && route.Some? then Some(route.value.vehicleId) else None)
  }

  function Seconds(now: Instant, t: Instant): int {
    Max(0, t - now)
  }

  function AsRecoveryOrder(now: Instant, t: Target): SolverOrder {
    var direct := t.handover == None && t.requiredVehicle == None;
    SolverOrder(t.orderId, if direct then Some(t.pickup) else None, t.handover, t.delivery,
                if t.handover.Some? then 0 else Seconds(now, t.readyAt),
                Seconds(now, t.windowStart), Seconds(now, t.windowEnd),
                if direct then t.pickupService else 0, if t.handover.Some? then t.pickupService else 0,
                t.deliveryService, t.demand, t.requiredVehicle)
  }

  function AsRecoveryVehicle(now: Instant, v: VehicleFact): SolverVehicle {
    SolverVehicle(v.vehicleId, v.capacity, v.start, Seconds(now, v.from), Seconds(now, v.until), v.initialLoad)
  }

  function AsRecoveryOrders(now: Instant, targets: seq<Target>): seq<SolverOrder> {
    if targets == [] then []
    else AsRecoveryOrders(now, targets[..|targets| - 1]) + [AsRecoveryOrder(now, targets[|targets| - 1])]
  }

  function AsRecoveryVehicles(now: Instant, vehicles: seq<VehicleFact>): seq<SolverVehicle> {
    if vehicles == [] then []
    else AsRecoveryVehicles(now, vehicles[..|vehicles| - 1]) + [AsRecoveryVehicle(now, vehicles[|vehicles| - 1])]
  }

  /** `build_recovery_solver_input`. */
  function RecoveryInput(c: Recovery, locations: seq<Id>, distances: Matrix, durations: Matrix): SolverInput {
    SolverInput(AsRecoveryOrders(c.now, c.targets), AsRecoveryVehicles(c.now, c.vehicles), [], locations, distances, durations)
  }

  // ----- what is kept of a base route -----

  function TargetsById(targets: seq<Target>): map<Id, Target> {
    if targets == [] then map[]
    else TargetsById(targets[..|targets| - 1])[targets[|targets| - 1].orderId := targets[|targets| - 1]]
  }

  function VehicleFactsById(vehicles: seq<VehicleFact>): map<Id, VehicleFact> {
    if vehicles == [] then map[]
    else VehicleFactsById(vehicles[..|vehicles| - 1])[vehicles[|vehicles| - 1].vehicleId := vehicles[|vehicles| - 1]]
  }

  /** The routes that lose their targets. */
  function RebuiltIds(targets: seq<Target>): set<Id> {
    set i | 0 <= i < |targets| && targets[i].originalRoute.Some? :: targets[i].originalRoute.value
  }

  function Surviving(stops: seq<Stop>, targets: set<Id>): seq<Stop> {
    if stops == [] then []
    else
      var last := stops[|stops| - 1];
      Surviving(stops[..|stops| - 1], targets) + if last.orderId !in targets || last.status == Completed then [last] else []
  }

  /** `_preserved_stops`. */
  function Preserved(base: Route, targets: set<Id>, rebuilt: set<Id>): seq<Stop> {
    if base.id !in rebuilt then base.stops else Surviving(base.stops, targets)
  }

  // ----- splicing -----

  /** `copied_ids` after the first n copies, when copy k gets the id first + k. */
  function CopiedIds(preserved: seq<Stop>, first: Id, n: nat): map<Id, Id>
    requires n <= |preserved|
  {
    if n == 0 then map[] else CopiedIds(preserved, first, n - 1)[preserved[n - 1].id := first + n - 1]
  }

  /** `origin_ids` after the first n copies and then m new stops. */
  function OriginIds(preserved: seq<Stop>, added: seq<SolverStop>, first: Id, n: nat, m: nat): map<Id, Id>
    requires n <= |preserved| && m <= |added| && (0 < m ==> n == |preserved|)
  {
    if 0 < m then
      var before := OriginIds(preserved, added, first, n, m - 1);
      if added[m - 1].kind == Delivery then before else before[added[m - 1].orderId := first + n + m - 1]
    else if 0 < n then
      var before := OriginIds(preserved, added, first, n - 1, 0);
      if preserved[n - 1].kind == Delivery then before else before[preserved[n - 1].orderId := first + n - 1]
    else map[]
  }

  function CopyOf(stop: Stop, routeId: Id, id: Id, sequenceNo: int, precedence: Option<Id>): Stop {
    stop.(id := id, routeId := routeId, sequenceNo := sequenceNo, precedence := precedence)
  }

  function Renamed(ids: map<Id, Id>, precedence: Option<Id>): Option<Id> {
    if precedence.Some? && precedence.value in ids then Some(ids[precedence.value]) else None
  }

  function FreshStop(now: Instant, incidentId: Id, t: Target, routeId: Id, id: Id, sequenceNo: int, s: SolverStop, precedence: Option<Id>): Stop {
    Stop(id, routeId, s.orderId, s.locationId, s.kind, sequenceNo, precedence,
         if s.kind == Handover then Some(incidentId) else None,
         now + s.arrival, now + s.departure, None, None, s.service,
         Some(match s.kind case Delivery => t.windowStart case Handover => now case Pickup => t.readyAt),
         if s.kind == Delivery then Some(t.windowEnd) else None,
         t.demand, Planned)
  }

  /** The lookups for new stop m succeed. */
  predicate FreshOk(targets: map<Id, Target>, preserved: seq<Stop>, added: seq<SolverStop>, m: nat)
    requires m < |added|
  {
    && added[m].orderId in targets
    && (added[m].kind == Delivery ==> added[m].orderId in OriginIds(preserved, added, 0, |preserved|, m))
  }

  function FreshPrecedence(preserved: seq<Stop>, added: seq<SolverStop>, first: Id, m: nat): Option<Id>
    requires m < |added|
  {
    var origins := OriginIds(preserved, added, first, |preserved|, m);
    if added[m].kind == Delivery && added[m].orderId in origins then Some(origins[added[m].orderId]) else None
  }

  /** The rows of the first n copies. */
  function Copies(preserved: seq<Stop>, routeId: Id, n: nat): (rows: seq<Stop>)
    requires n <= |preserved|
    ensures |rows| == n
  {
    if n == 0 then []
    else
      Copies(preserved, routeId, n - 1)
      + [CopyOf(preserved[n - 1], routeId, routeId + n, n,
                Renamed(CopiedIds(preserved, routeId + 1, n - 1), preserved[n - 1].precedence))]
  }

  datatype Splice = Splice(now: Instant, incidentId: Id, targets: map<Id, Target>, preserved: seq<Stop>, added: seq<SolverStop>) {
    predicate Known(m: nat)
      requires m <= |added|
    {
      forall k :: 0 <= k < m ==> added[k].orderId in targets
    }

    predicate OkUpTo(m: nat)
      requires m <= |added|
    {
      forall k :: 0 <= k < m ==> FreshOk(targets, preserved, added, k)
    }

    /** No lookup fails. */
    predicate Ok() {
      OkUpTo(|added|)
    }

    /** The rows of the first m new stops, after the copies. */
    function FreshRows(routeId: Id, m: nat): (rows: seq<Stop>)
      requires m <= |added| && Known(m)
      ensures |rows| == m
    {
      if m == 0 then []
      else
        FreshRows(routeId, m - 1)
        + [FreshStop(now, incidentId, targets[added[m - 1].orderId], routeId, routeId + |preserved| + m, |preserved| + m,
                     added[m - 1], FreshPrecedence(preserved, added, routeId + 1, m - 1))]
    }

    function Rows(routeId: Id): (rows: seq<Stop>)
      requires Known(|added|)
      ensures |rows| == |preserved| + |added|
    {
      Copies(preserved, routeId, |preserved|) + FreshRows(routeId, |added|)
    }
  }

  /** The first loop of `_persist_stops`. */
  method CopyStops(splice: Splice, routeId: Id, routeByOrder: map<Id, Id>)
    returns (rows: seq<Stop>, originIds: map<Id, Id>, updated: map<Id, Id>)
    ensures rows == Copies(splice.preserved, routeId, |splice.preserved|)
    ensures originIds == OriginIds(splice.preserved, splice.added, routeId + 1, |splice.preserved|, 0)
    ensures updated == Visited(routeByOrder, routeId, splice, |splice.preserved|, 0)
  {
    var preserved := splice.preserved;
    var copiedIds: map<Id, Id> := map[];
    var sequence := 0;
    rows, originIds, updated := [], map[], routeByOrder;
    for n := 0 to |preserved|
      invariant sequence == n && rows == Copies(preserved, routeId, n)
      invariant copiedIds == CopiedIds(preserved, routeId + 1, n)
      invariant originIds == OriginIds(preserved, splice.added, routeId + 1, n, 0)
      invariant updated == Visited(routeByOrder, routeId, splice, n, 0)
    {
      var stop := preserved[n];
      sequence := sequence + 1;
      var stopId := routeId + sequence;
      rows := rows + [CopyOf(stop, routeId, stopId, sequence, Renamed(copiedIds, stop.precedence))];
      copiedIds := copiedIds[stop.id := stopId];
      if stop.kind != Delivery {
        originIds := originIds[stop.orderId := stopId];
      }
      updated := updated[stop.orderId := routeId];
    }
  }

  /** The second loop of `_persist_stops`. */
  method AppendStops(splice: Splice, routeId: Id, origins: map<Id, Id>, routeByOrder: map<Id, Id>, ghost start: map<Id, Id>)
    returns (ok: bool, rows: seq<Stop>, updated: map<Id, Id>)
    requires origins == OriginIds(splice.preserved, splice.added, routeId + 1, |splice.preserved|, 0)
    ensures ok == splice.Ok()
    ensures ok ==> splice.Known(|splice.added|) && rows == splice.FreshRows(routeId, |splice.added|)
    requires routeByOrder == Visited(start, routeId, splice, |splice.preserved|, 0)
    ensures ok ==> updated == Visited(start, routeId, splice, |splice.preserved|, |splice.added|)
  {
    var preserved, added := splice.preserved, splice.added;
    var originIds, sequence := origins, |preserved|;
    ok, rows, updated := true, [], routeByOrder;
    for m := 0 to |added|
      invariant sequence == |preserved| + m && ok
      invariant splice.OkUpTo(m) && splice.Known(m)
      invariant rows == splice.FreshRows(routeId, m)
      invariant originIds == OriginIds(preserved, added, routeId + 1, |preserved|, m)
      invariant updated == Visited(start, routeId, splice, |preserved|, m)
    {
      var s := added[m];
      sequence := sequence + 1;
      OriginIdKeys(preserved, added, routeId + 1, |preserved|, m);
      if s.orderId !in splice.targets || (s.kind == Delivery && s.orderId !in originIds) {
        assert !FreshOk(splice.targets, preserved, added, m);
        return false, rows, updated;
      }
      var stopId := routeId + sequence;
      var precedence := if s.kind == Delivery then Some(originIds[s.orderId]) else None;
      rows := rows + [FreshStop(splice.now, splice.incidentId, splice.targets[s.orderId], routeId, stopId, sequence, s, precedence)];
      if s.kind != Delivery {
        originIds := originIds[s.orderId := stopId];
      }
      updated := updated[s.orderId := routeId];
    }
  }

  /** `_persist_stops`. */
  method PersistStops(splice: Splice, routeId: Id, routeByOrder: map<Id, Id>)
    returns (ok: bool, rows: seq<Stop>, updated: map<Id, Id>)
    ensures ok == splice.Ok()
    ensures ok ==> splice.Known(|splice.added|) && rows == splice.Rows(routeId)
    ensures ok ==> updated == Visited(routeByOrder, routeId, splice, |splice.preserved|, |splice.added|)
  {
    var copies, originIds, copied := CopyStops(splice, routeId, routeByOrder);
    ok, rows, updated := AppendStops(splice, routeId, originIds, copied, routeByOrder);
    rows := copies + rows;
  }

  /** `route_by_order` after n copies and m new stops: both overwrite. */
  function Visited(routeByOrder: map<Id, Id>, routeId: Id, splice: Splice, n: nat, m: nat): map<Id, Id>
    requires n <= |splice.preserved| && m <= |splice.added| && (0 < m ==> n == |splice.preserved|)
  {
    if 0 < m then Visited(routeByOrder, routeId, splice, n, m - 1)[splice.added[m - 1].orderId := routeId]
    else if 0 < n then Visited(routeByOrder, routeId, splice, n - 1, 0)[splice.preserved[n - 1].orderId := routeId]
    else routeByOrder
  }

  lemma {:induction false} OriginIdKeys(preserved: seq<Stop>, added: seq<SolverStop>, first: Id, n: nat, m: nat)
    requires n <= |preserved| && m <= |added| && (0 < m ==> n == |preserved|)
    ensures OriginIds(preserved, added, first, n, m).Keys == OriginIds(preserved, added, 0, n, m).Keys
    decreases m, n
  {
    if 0 < m { OriginIdKeys(preserved, added, first, n, m - 1); }
    else if 0 < n { OriginIdKeys(preserved, added, first, n - 1, 0); }
  }

  // ----- the routes of the candidate -----

  /** A route to write: a base route and the new stops of its vehicle, or new stops alone. */
  datatype Job = Job(base: Option<Route>, solver: Option<SolverRoute>)

  datatype Frame = Frame(c: Recovery, planId: Id, roads: Roads) {
    function Targets(): map<Id, Target> { TargetsById(c.targets) }

    function Kept(job: Job): seq<Stop> {
      if job.base == None then [] else Preserved(job.base.value, TargetsById(c.targets).Keys, RebuiltIds(c.targets))
    }

    function New(job: Job): seq<SolverStop> {
      if job.solver == None then [] else job.solver.value.stops
    }

    function SpliceOf(job: Job): Splice {
      Splice(c.now, c.incidentId, Targets(), Kept(job), New(job))
    }

    predicate Skipped(job: Job) {
      Kept(job) == [] && job.solver == None
    }

    predicate Unchanged(job: Job)
      requires job.base.Some?
    {
      job.solver == None && job.base.value.id !in RebuiltIds(c.targets)
    }

    predicate EndsAtIncident(job: Job)
      requires job.base.Some?
    {
      c.brokenRoute == Some(job.base.value.id) && c.incidentLocation.Some?
    }

    /** No lookup fails and there is a last stop where one is asked for. */
    predicate Buildable(job: Job) {
      && SpliceOf(job).Ok()
      && (if job.base == None then job.solver.Some? && job.solver.value.vehicleId in VehicleFactsById(c.vehicles) && New(job) != []
          else Unchanged(job) || New(job) != [] || EndsAtIncident(job) || Kept(job) != [])
    }

    function Road(vehicleId: Id, otherwise: int): int {
      if roads.Some? && vehicleId in roads.value then roads.value[vehicleId] else otherwise
    }

    /** The row of a base route without its stops. */
    function Header(job: Job, routeId: Id, routeNo: int): Route
      requires job.base.Some? && (Unchanged(job) || New(job) != [] || EndsAtIncident(job) || Kept(job) != [])
    {
      var base, added, kept := job.base.value, New(job), Kept(job);
      var vehicles := VehicleFactsById(c.vehicles);
      var end := if Unchanged(job) then base.endLocation
                 else if added != [] then added[|added| - 1].locationId
                 else if EndsAtIncident(job) then c.incidentLocation.value
                 else kept[|kept| - 1].locationId;
      var plannedEnd := if added != [] then c.now + added[|added| - 1].departure
                        else if Unchanged(job) then base.plannedEnd else c.now;
      Route(routeId, planId, routeNo, base.vehicleId, base.driverId, base.assignmentId, base.startLocation, end,
            if job.solver == None && base.id in RebuiltIds(c.targets) then RouteCompleted else base.status,
            base.plannedStart, plannedEnd, base.actualStart, if job.solver == None then base.actualEnd else None,
            Road(base.vehicleId, if job.solver.Some? then job.solver.value.distance else base.distance),
            if Unchanged(job) then base.duration else plannedEnd - base.plannedStart,
            if base.vehicleId in vehicles then vehicles[base.vehicleId].capacity else base.capacity, [])
    }

    /** The row of a vehicle that had no base route, without its stops. */
    function LeftoverHeader(solver: SolverRoute, v: VehicleFact, routeId: Id, routeNo: int): Route
      requires solver.stops != []
    {
      var last := solver.stops[|solver.stops| - 1];
      Route(routeId, planId, routeNo, v.vehicleId, v.driverId, v.assignmentId, v.start, last.locationId,
            RoutePlanned, v.from, c.now + last.departure, None, None,
            Road(solver.vehicleId, solver.distance), c.now + last.departure - v.from, v.capacity, [])
    }

    function Row(job: Job, routeId: Id, routeNo: int): Route
      requires Buildable(job)
    {
      var splice := SpliceOf(job);
      assert splice.Known(|splice.added|) by {
        assert forall k {:trigger splice.added[k]} :: 0 <= k < |splice.added| ==> FreshOk(splice.targets, splice.preserved, splice.added, k);
      }
      var header := if job.base == None
                    then LeftoverHeader(job.solver.value, VehicleFactsById(c.vehicles)[job.solver.value.vehicleId], routeId, routeNo)
                    else Header(job, routeId, routeNo);
      header.(stops := splice.Rows(routeId))
    }

    function Size(job: Job): nat { 1 + |Kept(job)| + |New(job)| }
  }

  /** `{item.vehicle_id: item for item in result.routes}`. */
  function RoutesByVehicle(routes: seq<SolverRoute>): map<Id, SolverRoute> {
    if routes == [] then map[]
    else RoutesByVehicle(routes[..|routes| - 1])[routes[|routes| - 1].vehicleId := routes[|routes| - 1]]
  }

  function BaseVehicles(routes: seq<Route>): set<Id> {
    set i | 0 <= i < |routes| :: routes[i].vehicleId
  }

  function BaseJob(base: Route, byVehicle: map<Id, SolverRoute>): Job {
    Job(Some(base), if base.vehicleId in byVehicle then Some(byVehicle[base.vehicleId]) else None)
  }

  /** The rows written so far with `route_by_order` and the next free id, or a failed lookup. */
  datatype Draft = Failed | Written(rows: seq<Route>, routeByOrder: map<Id, Id>, next: Id)

  /** One more route. */
  function WriteNext(f: Frame, d: Draft, job: Job): Draft {
    if d == Failed || !f.Buildable(job) then Failed
    else
      var splice := f.SpliceOf(job);
      Written(d.rows + [f.Row(job, d.next, |d.rows| + 1)],
              Visited(d.routeByOrder, d.next, splice, |splice.preserved|, |splice.added|),
              d.next + f.Size(job))
  }

  /** After the first n base routes. */
  function BaseDraft(f: Frame, byVehicle: map<Id, SolverRoute>, first: Id, n: nat): Draft
    requires n <= |f.c.routes|
  {
    if n == 0 then Written([], map[], first)
    else
      var before := BaseDraft(f, byVehicle, first, n - 1);
      var job := BaseJob(f.c.routes[n - 1], byVehicle);
      if f.Skipped(job) then before else WriteNext(f, before, job)
  }

  /** After the first n solver routes, those of vehicles without a base route. */
  function LeftoverDraft(f: Frame, routes: seq<SolverRoute>, base: Draft, n: nat): Draft
    requires n <= |routes|
  {
    if n == 0 then base
    else
      var before := LeftoverDraft(f, routes, base, n - 1);
      if routes[n - 1].vehicleId in BaseVehicles(f.c.routes) then before
      else WriteNext(f, before, Job(None, Some(routes[n - 1])))
  }

  function FinalDraft(f: Frame, result: SolverResult, first: Id): Draft {
    LeftoverDraft(f, result.routes, BaseDraft(f, RoutesByVehicle(result.routes), first, |f.c.routes|), |result.routes|)
  }

  lemma {:induction false} BaseStaysFailed(f: Frame, byVehicle: map<Id, SolverRoute>, first: Id, i: nat, n: nat)
    requires i <= n <= |f.c.routes| && BaseDraft(f, byVehicle, first, i) == Failed
    ensures BaseDraft(f, byVehicle, first, n) == Failed
  {
    if i < n { BaseStaysFailed(f, byVehicle, first, i, n - 1); }
  }

  lemma {:induction false} LeftoverStaysFailed(f: Frame, routes: seq<SolverRoute>, base: Draft, i: nat, n: nat)
    requires i <= n <= |routes| && LeftoverDraft(f, routes, base, i) == Failed
    ensures LeftoverDraft(f, routes, base, n) == Failed
  {
    if i < n { LeftoverStaysFailed(f, routes, base, i, n - 1); }
  }

  method WriteRoute(f: Frame, d: Draft, job: Job) returns (after: Draft)
    requires d.Written?
    ensures after == WriteNext(f, d, job)
  {
    var ok, stops, routeByOrder := PersistStops(f.SpliceOf(job), d.next, d.routeByOrder);
    if !ok {
      return Failed;
    }
    var header: Route;
    if job.base == None {
      var vehicles := VehicleFactsById(f.c.vehicles);
      if job.solver == None || job.solver.value.vehicleId !in vehicles || f.New(job) == [] {
        return Failed;
      }
      header := f.LeftoverHeader(job.solver.value, vehicles[job.solver.value.vehicleId], d.next, |d.rows| + 1);
    } else {
      if !f.Unchanged(job) && f.New(job) == [] && !f.EndsAtIncident(job) && f.Kept(job) == [] {
        return Failed;
      }
      header := f.Header(job, d.next, |d.rows| + 1);
    }
    after := Written(d.rows + [header.(stops := stops)], routeByOrder, d.next + f.Size(job));
  }

  predicate OneRoutePerVehicle(routes: seq<Route>) {
    forall i, j :: 0 <= i < j < |routes| ==> routes[i].vehicleId != routes[j].vehicleId
  }

  method WriteUnlessSkipped(f: Frame, d: Draft, job: Job) returns (after: Draft)
    requires d.Written?
    ensures after == if f.Skipped(job) then d else WriteNext(f, d, job)
  {
    after := d;
    if !f.Skipped(job) {
      after := WriteRoute(f, d, job);
    }
  }

  lemma {:induction false} BaseDraftOneMore(f: Frame, byVehicle: map<Id, SolverRoute>, first: Id, n: nat)
    requires n < |f.c.routes|
    ensures var before, job := BaseDraft(f, byVehicle, first, n), BaseJob(f.c.routes[n], byVehicle);
            BaseDraft(f, byVehicle, first, n + 1) == if f.Skipped(job) then before else WriteNext(f, before, job)
  {
  }

  /** The loop over the base routes; takes their vehicles off the solver routes. */
  method WriteBaseRoutes(f: Frame, byVehicle: map<Id, SolverRoute>, first: Id) returns (d: Draft, left: map<Id, SolverRoute>)
    requires OneRoutePerVehicle(f.c.routes)
    ensures d == BaseDraft(f, byVehicle, first, |f.c.routes|)
    ensures d.Written? ==> left == byVehicle - BaseVehicles(f.c.routes)
  {
    d, left := Written([], map[], first), byVehicle;
    for n := 0 to |f.c.routes|
      invariant d.Written? && d == BaseDraft(f, byVehicle, first, n)
      invariant left == byVehicle - BaseVehicles(f.c.routes[..n])
    {
      var base := f.c.routes[n];
      var job := Job(Some(base), if base.vehicleId in left then Some(left[base.vehicleId]) else None);
      TakeNext(f.c.routes, byVehicle, left, n);
      left := left - {base.vehicleId};
      BaseDraftOneMore(f, byVehicle, first, n);
      d := WriteUnlessSkipped(f, d, job);
      if d == Failed {
        BaseStaysFailed(f, byVehicle, first, n + 1, |f.c.routes|);
        return;
      }
    }
    assert f.c.routes[..|f.c.routes|] == f.c.routes;
  }

  lemma {:induction false} BaseVehiclesOneMore(routes: seq<Route>, n: nat)
    requires n < |routes| && OneRoutePerVehicle(routes)
    ensures routes[n].vehicleId !in BaseVehicles(routes[..n])
    ensures BaseVehicles(routes[..n + 1]) == BaseVehicles(routes[..n]) + {routes[n].vehicleId}
  {
    assert forall i :: 0 <= i < n ==> routes[..n + 1][i] == routes[i] && routes[..n][i] == routes[i];
    assert routes[..n + 1][n] == routes[n];
    forall v | v in BaseVehicles(routes[..n]) ensures v in BaseVehicles(routes[..n + 1]) {
      var i :| 0 <= i < n && routes[..n][i].vehicleId == v;
      assert routes[..n + 1][i].vehicleId == v;
    }
  }

  lemma {:induction false} TakeNext(routes: seq<Route>, byVehicle: map<Id, SolverRoute>, left: map<Id, SolverRoute>, n: nat)
    requires n < |routes| && OneRoutePerVehicle(routes) && left == byVehicle - BaseVehicles(routes[..n])
    ensures BaseJob(routes[n], byVehicle) == BaseJob(routes[n], left)
    ensures left - {routes[n].vehicleId} == byVehicle - BaseVehicles(routes[..n + 1])
  {
    BaseVehiclesOneMore(routes, n);
  }

  lemma {:induction false} RoutesByVehicleKeys(routes: seq<SolverRoute>, i: nat)
    requires i < |routes|
    ensures routes[i].vehicleId in RoutesByVehicle(routes)
  {
    if i < |routes| - 1 { RoutesByVehicleKeys(routes[..|routes| - 1], i); }
  }

  /** The loop over the solver routes that no base route took. */
  method WriteLeftovers(f: Frame, routes: seq<SolverRoute>, left: map<Id, SolverRoute>, base: Draft) returns (d: Draft)
    requires base.Written? && left.Keys == RoutesByVehicle(routes).Keys - BaseVehicles(f.c.routes)
    ensures d == LeftoverDraft(f, routes, base, |routes|)
  {
    d := base;
    for i := 0 to |routes|
      invariant d.Written? && d == LeftoverDraft(f, routes, base, i)
    {
      RoutesByVehicleKeys(routes, i);
      if routes[i].vehicleId in left {
        d := WriteRoute(f, d, Job(None, Some(routes[i])));
        if d == Failed {
          LeftoverStaysFailed(f, routes, base, i + 1, |routes|);
          return;
        }
      }
    }
  }

  /** `_persist_candidate_routes`. */
  method PersistCandidateRoutes(f: Frame, result: SolverResult, first: Id) returns (d: Draft)
    requires OneRoutePerVehicle(f.c.routes)
    ensures d == FinalDraft(f, result, first)
  {
    var left;
    d, left := WriteBaseRoutes(f, RoutesByVehicle(result.routes), first);
    if d == Failed {
      LeftoverStaysFailed(f, result.routes, d, 0, |result.routes|);
    } else {
      d := WriteLeftovers(f, result.routes, left, d);
    }
  }

  // ----- the candidate plan -----

  function UnassignedReason(reasons: map<Id, nat>, member: Member): Option<nat> {
    if member.orderId in reasons then Some(reasons[member.orderId]) else member.reason
  }

  predicate MemberOk(routeByOrder: map<Id, Id>, reasons: map<Id, nat>, member: Member) {
    member.orderId in routeByOrder || UnassignedReason(reasons, member).Some?
  }

  function MembershipRow(routeByOrder: map<Id, Id>, reasons: map<Id, nat>, member: Member): Membership
    requires MemberOk(routeByOrder, reasons, member)
  {
    if member.orderId in routeByOrder then OnRouteRow(member.orderId, routeByOrder[member.orderId])
    else UnassignedRow(member.orderId, UnassignedReason(reasons, member).value)
  }

  predicate MembersOk(routeByOrder: map<Id, Id>, reasons: map<Id, nat>, members: seq<Member>, n: nat)
    requires n <= |members|
  {
    forall i :: 0 <= i < n ==> MemberOk(routeByOrder, reasons, members[i])
  }

  function MembershipRows(routeByOrder: map<Id, Id>, reasons: map<Id, nat>, members: seq<Member>, n: nat): (rows: seq<Membership>)
    requires n <= |members| && MembersOk(routeByOrder, reasons, members, n)
    ensures |rows| == n
  {
    if n == 0 then []
    else MembershipRows(routeByOrder, reasons, members, n - 1) + [MembershipRow(routeByOrder, reasons, members[n - 1])]
  }

  function AssignedCount(rows: seq<Membership>): nat {
    if rows == [] then 0 else AssignedCount(rows[..|rows| - 1]) + if rows[|rows| - 1].OnRouteRow? then 1 else 0
  }

  function UnassignedCount(rows: seq<Membership>): nat {
    if rows == [] then 0 else UnassignedCount(rows[..|rows| - 1]) + if rows[|rows| - 1].UnassignedRow? then 1 else 0
  }

  function SumDistance(rows: seq<Route>): int {
    if rows == [] then 0 else SumDistance(rows[..|rows| - 1]) + rows[|rows| - 1].distance
  }

  function SumDuration(rows: seq<Route>): int {
    if rows == [] then 0 else SumDuration(rows[..|rows| - 1]) + rows[|rows| - 1].duration
  }

  /** A plan with everything the review reads. */
  datatype FullPlan = FullPlan(row: PlanRow, routes: seq<Route>, members: seq<Membership>)

  function CandidateOf(f: Frame, result: SolverResult, version: nat, first: Id): Option<FullPlan> {
    var d := FinalDraft(f, result, first);
    var reasons := ReasonByOrder(result.unassigned);
    if d == Failed || !MembersOk(d.routeByOrder, reasons, f.c.members, |f.c.members|) then None
    else
      var members := MembershipRows(d.routeByOrder, reasons, f.c.members, |f.c.members|);
      Some(FullPlan(PlanRow(f.planId, f.c.group, version, Some(f.c.basePlanId), PlanCandidate, None,
                            SumDistance(d.rows), SumDuration(d.rows), |d.rows|, AssignedCount(members), UnassignedCount(members)),
                    d.rows, members))
  }

  method CountAndSum(routes: seq<Route>) returns (distance: int, duration: int)
    ensures distance == SumDistance(routes) && duration == SumDuration(routes)
  {
    distance, duration := 0, 0;
    for i := 0 to |routes|
      invariant distance == SumDistance(routes[..i]) && duration == SumDuration(routes[..i])
    {
      assert routes[..i + 1][..i] == routes[..i];
      distance, duration := distance + routes[i].distance, duration + routes[i].duration;
    }
    assert routes[..|routes|] == routes;
  }

  lemma {:induction false} CountsOneMore(rows: seq<Membership>, row: Membership)
    ensures AssignedCount(rows + [row]) == AssignedCount(rows) + if row.OnRouteRow? then 1 else 0
    ensures UnassignedCount(rows + [row]) == UnassignedCount(rows) + if row.UnassignedRow? then 1 else 0
  {
    assert (rows + [row])[..|rows|] == rows;
  }

  method WriteMember(routeByOrder: map<Id, Id>, reasons: map<Id, nat>, member: Member) returns (ok: bool, row: Membership)
    ensures ok == MemberOk(routeByOrder, reasons, member)
    ensures ok ==> row == MembershipRow(routeByOrder, reasons, member)
  {
    if member.orderId in routeByOrder {
      return true, OnRouteRow(member.orderId, routeByOrder[member.orderId]);
    }
    var reason := if member.orderId in reasons then Some(reasons[member.orderId]) else member.reason;
    ok := reason.Some?;
    row := UnassignedRow(member.orderId, if ok then reason.value else 0);
  }

  /** The loop over the base memberships. */
  method WriteMembers(routeByOrder: map<Id, Id>, reasons: map<Id, nat>, members: seq<Member>)
    returns (ok: bool, rows: seq<Membership>, assignedCount: nat, unassignedCount: nat)
    ensures ok == MembersOk(routeByOrder, reasons, members, |members|)
    ensures ok ==> rows == MembershipRows(routeByOrder, reasons, members, |members|)
    ensures ok ==> assignedCount == AssignedCount(rows) && unassignedCount == UnassignedCount(rows)
  {
    ok, rows, assignedCount, unassignedCount := true, [], 0, 0;
    for i := 0 to |members|
      invariant ok && MembersOk(routeByOrder, reasons, members, i)
      invariant rows == MembershipRows(routeByOrder, reasons, members, i)
      invariant assignedCount == AssignedCount(rows) && unassignedCount == UnassignedCount(rows)
    {
      var row;
      ok, row := WriteMember(routeByOrder, reasons, members[i]);
      if !ok {
        return;
      }
      CountsOneMore(rows, row);
      rows := rows + [row];
      if row.OnRouteRow? {
        assignedCount := assignedCount + 1;
      } else {
        unassignedCount := unassignedCount + 1;
      }
    }
  }

  /** `_create_candidate`: a failing lookup rolls the transaction back. */
  method CreateCandidate(f: Frame, result: SolverResult, latestVersion: nat, first: Id) returns (candidate: Option<FullPlan>)
    requires OneRoutePerVehicle(f.c.routes)
    ensures candidate == CandidateOf(f, result, latestVersion + 1, first)
  {
    var d := PersistCandidateRoutes(f, result, first);
    if d == Failed {
      return None;
    }
    var ok, members, assignedCount, unassignedCount := WriteMembers(d.routeByOrder, ReasonByOrder(result.unassigned), f.c.members);
    if !ok {
      return None;
    }
    var distance, duration := CountAndSum(d.rows);
    candidate := Some(FullPlan(PlanRow(f.planId, f.c.group, latestVersion + 1, Some(f.c.basePlanId), PlanCandidate, None,
                                       distance, duration, |d.rows|, assignedCount, unassignedCount),
                               d.rows, members));
  }
}
