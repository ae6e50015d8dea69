/** The contracts between the workflows and the optimizer.  `Valid` states what the
    constructors of the source refuse to go without. */
module Optimization {
  import opened Ordering
  import opened Domain

  datatype SolverStatus = Feasible | Infeasible | SolverFailed

  datatype SolverOrder = SolverOrder(
    orderId: Id,
    pickup: Option<Id>,
    handover: Option<Id>,
    delivery: Id,
    ready: int,
    windowStart: int,
    windowEnd: int,
    pickupService: int,
    handoverService: int,
    deliveryService: int,
    demand: int,
    requiredVehicle: Option<Id>)
  {
    predicate DeliveryOnly() {
      pickup == None && handover == None
    }

    predicate Valid() {
      && !(pickup.Some? && handover.Some?)
      && (DeliveryOnly() <==> requiredVehicle.Some?)
      && 0 <= ready && 0 <= windowStart <= windowEnd
      && 0 <= pickupService && 0 <= handoverService && 0 <= deliveryService
      && 0 < demand
      && (pickup.Some? ==> handoverService == 0)
      && (handover.Some? ==> pickupService == 0)
      && (DeliveryOnly() ==> pickupService == 0 && handoverService == 0)
    }

    /** Where the load is taken on, and by which kind of stop. */
    function Origin(): Option<Id> {
      if pickup.Some? then pickup else handover
    }

    function OriginKind(): StopKind {
      if pickup.Some? then Pickup else Handover
    }

    function ServiceAt(kind: StopKind): int {
      match kind
      case Pickup => pickupService
      case Handover => handoverService
      case Delivery => deliveryService
    }

    function LoadChangeAt(kind: StopKind): int {
      if kind == Delivery then -demand else demand
    }
  }

  datatype SolverVehicle = SolverVehicle(
    vehicleId: Id,
    capacity: int,
    start: Id,
    availableFrom: int,
    availableUntil: int,
    initialLoad: int)
  {
    predicate Valid() {
      0 <= availableFrom <= availableUntil && 0 < capacity && 0 <= initialLoad <= capacity
    }
  }

  datatype SolverStop = SolverStop(
    orderId: Id,
    locationId: Id,
    kind: StopKind,
    sequenceNo: int,
    arrival: int,
    departure: int,
    service: int,
    loadChange: int)
  {
    predicate Valid() {
      0 <= arrival <= departure && 0 <= service && 0 < sequenceNo
    }
  }

  datatype FrozenTask = FrozenTask(vehicleId: Id, stop: SolverStop)

  datatype SolverRoute = SolverRoute(vehicleId: Id, stops: seq<SolverStop>, distance: int, duration: int) {
    predicate Valid() {
      0 <= distance && 0 <= duration && forall k :: 0 <= k < |stops| ==> stops[k].Valid()
    }
  }

  datatype SolverUnassigned = SolverUnassigned(orderId: Id, reason: nat)

  datatype SolverResult = SolverResult(
    status: SolverStatus,
    routes: seq<SolverRoute>,
    unassigned: seq<SolverUnassigned>,
    totalDistance: int,
    totalDuration: int)
  {
    predicate Valid() {
      && 0 <= totalDistance && 0 <= totalDuration
      && forall i :: 0 <= i < |routes| ==> routes[i].Valid()
    }
  }

  type Matrix = seq<seq<int>>

  predicate Square(m: Matrix, size: nat) {
    |m| == size && forall i :: 0 <= i < size ==> |m[i]| == size && forall j :: 0 <= j < size ==> 0 <= m[i][j]
  }

  predicate Distinct<T(==)>(s: seq<T>) {
    forall i, j :: 0 <= i < j < |s| ==> s[i] != s[j]
  }

  datatype SolverInput = SolverInput(
    orders: seq<SolverOrder>,
    vehicles: seq<SolverVehicle>,
    frozen: seq<FrozenTask>,
    locations: seq<Id>,
    distances: Matrix,
    durations: Matrix)
  {
    predicate MatricesFit() {
      Square(distances, |locations|) && Square(durations, |locations|)
    }

    predicate Valid() {
      && (forall i :: 0 <= i < |orders| ==> orders[i].Valid())
      && (forall i :: 0 <= i < |vehicles| ==> vehicles[i].Valid())
      && (forall i :: 0 <= i < |frozen| ==> frozen[i].stop.Valid())
      && MatricesFit()
      && Distinct(locations)
      && (forall i, j :: 0 <= i < j < |orders| ==> orders[i].orderId != orders[j].orderId)
      && (forall i, j :: 0 <= i < j < |vehicles| ==> vehicles[i].vehicleId != vehicles[j].vehicleId)
      && (forall i :: 0 <= i < |vehicles| ==> vehicles[i].start in locations)
      && (forall i :: 0 <= i < |orders| ==>
           orders[i].delivery in locations && (orders[i].Origin().Some? ==> orders[i].Origin().value in locations))
      && (forall i :: 0 <= i < |frozen| ==> frozen[i].stop.locationId in locations)
    }
  }

  // ----- dictionaries built from the input -----

  /** `{order.order_id: order for order in orders}`; a later order would win. */
  function OrdersById(orders: seq<SolverOrder>): map<Id, SolverOrder> {
    if orders == [] then map[]
    else OrdersById(orders[..|orders| - 1])[orders[|orders| - 1].orderId := orders[|orders| - 1]]
  }

  function VehiclesById(vehicles: seq<SolverVehicle>): map<Id, SolverVehicle> {
    if vehicles == [] then map[]
    else VehiclesById(vehicles[..|vehicles| - 1])[vehicles[|vehicles| - 1].vehicleId := vehicles[|vehicles| - 1]]
  }

  /** `location_index`. */
  function IndexOf(locations: seq<Id>, location: Id): (i: nat)
    requires location in locations
    ensures i < |locations| && locations[i] == location
  {
    if locations[|locations| - 1] == location then |locations| - 1
    else IndexOf(locations[..|locations| - 1], location)
  }

  function Entry(input: SolverInput, m: Matrix, from: Id, to: Id): (n: nat)
    requires Square(m, |input.locations|)
    requires from in input.locations && to in input.locations
  {
    m[IndexOf(input.locations, from)][IndexOf(input.locations, to)]
  }

  lemma {:induction false} OrdersByIdIs(orders: seq<SolverOrder>)
    requires forall i, j :: 0 <= i < j < |orders| ==> orders[i].orderId != orders[j].orderId
    ensures forall i :: 0 <= i < |orders| ==>
              orders[i].orderId in OrdersById(orders) && OrdersById(orders)[orders[i].orderId] == orders[i]
    ensures forall o :: o in OrdersById(orders) ==> OrdersById(orders)[o].orderId == o && OrdersById(orders)[o] in orders
  {
    if orders != [] {
      OrdersByIdIs(orders[..|orders| - 1]);
    }
  }

  lemma {:induction false} VehiclesByIdIs(vehicles: seq<SolverVehicle>)
    requires forall i, j :: 0 <= i < j < |vehicles| ==> vehicles[i].vehicleId != vehicles[j].vehicleId
    ensures forall i :: 0 <= i < |vehicles| ==>
              vehicles[i].vehicleId in VehiclesById(vehicles) && VehiclesById(vehicles)[vehicles[i].vehicleId] == vehicles[i]
    ensures forall v :: v in VehiclesById(vehicles) ==>
              VehiclesById(vehicles)[v].vehicleId == v && VehiclesById(vehicles)[v] in vehicles
  {
    if vehicles != [] {
      VehiclesByIdIs(vehicles[..|vehicles| - 1]);
    }
  }
}
