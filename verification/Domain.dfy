/** The rows that planning, execution, recovery and alerting share.  Identifiers are
    opaque naturals and instants are whole seconds, so that the source's
    `int(total_seconds())` truncation is exact. */
module Domain {
  import opened Ordering

  type Id = nat
  type Instant = int

  datatype StopKind = Pickup | Delivery | Handover
  datatype StopStatus = Planned | Arrived | InService | Completed
  datatype OrderStatus = OrderPlanned | PickupInProgress | PickedUp | Delivering | OrderCompleted
  datatype RiskStatus = Normal | AtRisk
  datatype RouteStatus = RoutePlanned | RouteActive | RouteCompleted | RouteCancelled

  /** A row of route_stops. */
  datatype Stop = Stop(
    id: Id,
    routeId: Id,
    orderId: Id,
    locationId: Id,
    kind: StopKind,
    sequenceNo: int,
    precedence: Option<Id>,
    incident: Option<Id>,
    plannedArrival: Instant,
    plannedDeparture: Instant,
    actualArrival: Option<Instant>,
    actualDeparture: Option<Instant>,
    service: int,
    windowStart: Option<Instant>,
    windowEnd: Option<Instant>,
    demand: int,
    status: StopStatus)

  /** A row of vehicle_routes with its stops in sequence order. */
  datatype Route = Route(
    id: Id,
    planId: Id,
    routeNo: int,
    vehicleId: Id,
    driverId: Id,
    assignmentId: Id,
    startLocation: Id,
    endLocation: Id,
    status: RouteStatus,
    plannedStart: Instant,
    plannedEnd: Instant,
    actualStart: Option<Instant>,
    actualEnd: Option<Instant>,
    distance: int,
    duration: int,
    capacity: int,
    stops: seq<Stop>)

  datatype PlanStatus = PlanDraft | PlanCandidate | PlanCurrent | PlanSuperseded | PlanCancelled
  datatype ResourceStatus = Available | Active | Unavailable
  datatype AssignmentStatus = AssignmentPlanned | AssignmentActive | AssignmentEnded | AssignmentCancelled
  datatype Assignment = Assignment(status: AssignmentStatus, activatedAt: Option<Instant>, endedAt: Option<Instant>)

  /** The execution part of a row of orders. */
  datatype Order = Order(status: OrderStatus, risk: RiskStatus, windowEnd: Instant, demand: int)

  function Max(a: int, b: int): int {
    if a < b then b else a
  }

  function Min(a: int, b: int): int {
    if b < a then b else a
  }

  function Or<T>(value: Option<T>, fallback: T): T {
    if value.Some? then value.value else fallback
  }
}

/** RiskService: arrival estimates against the end of the delivery window. */
module Risk {
  import opened Domain

  datatype Reason = ReasonNormal | PredictedMiss | ApproachingWindow | RiskCleared | PlanNotCurrent

  function StatusForEta(threshold: nat, eta: Instant, windowEnd: Instant): RiskStatus {
    if eta >= windowEnd - threshold then AtRisk else Normal
  }

  function ReasonForEta(threshold: nat, eta: Instant, windowEnd: Instant): Reason {
    if StatusForEta(threshold, eta, windowEnd) == Normal then ReasonNormal
    else if eta >= windowEnd then PredictedMiss
    else ApproachingWindow
  }

  /** How late the route is at its first unfinished stop; 0 when nothing is left. */
  function RouteDelay(stops: seq<Stop>, now: Instant): nat {
    if stops == [] then 0
    else if stops[0].status != Completed then Max(0, now - stops[0].plannedArrival)
    else RouteDelay(stops[1..], now)
  }

  /** A later look at a route never lowers the risk of a delivery. */
  lemma {:induction false} RiskIsMonotone(stops: seq<Stop>, threshold: nat, arrival: Instant, windowEnd: Instant, now: Instant, later: Instant)
    requires now <= later
    ensures RouteDelay(stops, now) <= RouteDelay(stops, later)
    ensures StatusForEta(threshold, arrival + RouteDelay(stops, now), windowEnd) == AtRisk ==>
              StatusForEta(threshold, arrival + RouteDelay(stops, later), windowEnd) == AtRisk
    decreases |stops|
  {
    if stops != [] {
      RiskIsMonotone(stops[1..], threshold, arrival, windowEnd, now, later);
    }
  }
}
