/** A merchant delay whose order is delivered before the recovery starts: the accepted recovery delivers
    it again, the candidate passes the gate, and it cannot be compared with its base plan. */
module DeliveredTwice {
  import opened Ordering
  import opened Domain
  import opened Risk
  import opened Optimization
  import opened Checker
  import opened Feasibility
  import opened Finalizer
  import opened FinalizedPlan
  import opened CapacitySafety
  import opened Execution
  import opened ExecutionInvariants
  import opened SmallInputs
  import Candidate
  import CandidateLaws
  import CandidateReview
  import Comparison
  import RecoveryContext
  import Protocol
  import opened ExecutedPlans
  import opened ReplannedOrders
  import ReusedRoutes

  const ORDER: Id := 8
  const SHOP: Id := 50
  const CUSTOMER: Id := 60
  const MERCHANT: Id := 5
  const ROUTE: Id := 100

  // ----- the plan -----

  const WANTED := PlanningOrder(ORDER, SHOP, CUSTOMER, 0, 0, 0, 1000, 0, 1)

  function Day(): Facts {
    Facts(0, [WANTED], [Pair(1, 1, 1, 5, SHOP, 0, None)])
  }

  function PlannedOrder(): SolverOrder {
    SolverOrder(ORDER, Some(SHOP), None, CUSTOMER, 0, 0, 1000, 0, 0, 0, 1, None)
  }

  function PlannedVehicle(): SolverVehicle {
    SolverVehicle(1, 5, SHOP, 0, 1000, 0)
  }

  const PICKUP_STOP := SolverStop(ORDER, SHOP, Pickup, 1, 0, 0, 0, 1)
  const DELIVERY_STOP := SolverStop(ORDER, CUSTOMER, Delivery, 2, 0, 0, 0, -1)

  /** The plan and its recovery get the same answer. */
  function Result(): SolverResult {
    Only(SolverRoute(1, [PICKUP_STOP, DELIVERY_STOP], 0, 0))
  }

  function Planned(): Origin {
    Origin(Day(), [SHOP, CUSTOMER], NOWHERE, NOWHERE, Result(), None, 10, ROUTE)
  }

  lemma {:induction false} PlanInputIs()
    ensures BuildSolverInput(Day(), [SHOP, CUSTOMER], NOWHERE, NOWHERE) == OneOrder(PlannedOrder(), PlannedVehicle(), SHOP, CUSTOMER)
  {
    assert Day().orders[..0] == [] && Day().pairs[..0] == [];
    assert AsSolverOrders(0, Day().orders) == [PlannedOrder()];
    assert PlanningEnd(Day(), 1) == 1000;
    assert AsSolverVehicles(0, 1000, Day().pairs) == [PlannedVehicle()];
  }

  lemma {:induction false} PlanIsTrip()
    ensures Result() == Only(Trip(PlannedOrder(), PlannedVehicle(), SHOP, CUSTOMER))
    ensures Timeless(PlannedOrder(), CUSTOMER) && Idle(PlannedVehicle(), SHOP, CUSTOMER) && Carries(PlannedOrder(), PlannedVehicle(), SHOP)
  {
  }

  lemma {:induction false} PlanIsOk()
    ensures Planned().Ok() && AllBuildable(Day(), Result(), Tables(), ROUTE)
  {
    PlanInputIs();
    PlanIsTrip();
    TripIsCertified(PlannedOrder(), PlannedVehicle(), SHOP, CUSTOMER);
    StorableIffNoEmptyRoute(Day(), [SHOP, CUSTOMER], NOWHERE, NOWHERE, Result(), None, 10, ROUTE);
  }

  function Tables(): Context {
    ContextOf(Day(), None, 10)
  }

  lemma {:induction false} TablesAre()
    ensures Tables().orders == map[ORDER := WANTED] && Tables().pairs == map[1 := Day().pairs[0]]
  {
    assert Day().orders[..0] == [] && Day().pairs[..0] == [];
  }

  // ----- its execution, call by call -----

  /** The status of a stop after n of its three actions. */
  function StatusAfter(n: int): StopStatus {
    if n <= 0 then StopStatus.Planned else if n == 1 then Arrived else if n == 2 then InService else Completed
  }

  function PickupRow(n: int): Stop {
    Stop(101, ROUTE, ORDER, SHOP, Pickup, 1, None, None, 0, 0, if 1 <= n then Some(10) else None, if 3 <= n then Some(10) else None,
         0, Some(0), None, 1, StatusAfter(n))
  }

  function DeliveryRow(n: int): Stop {
    Stop(102, ROUTE, ORDER, CUSTOMER, Delivery, 2, Some(101), None, 0, 0, if 1 <= n then Some(10) else None, if 3 <= n then Some(10) else None,
         0, Some(0), Some(1000), 1, StatusAfter(n))
  }

  function RouteRow(n: int): Route {
    Route(ROUTE, 10, 1, 1, 1, 1, SHOP, CUSTOMER, if n == 0 then RoutePlanned else if n < 6 then RouteActive else RouteCompleted,
          0, 0, if 1 <= n then Some(10) else None, if 6 <= n then Some(10) else None, 0, 0, 5, [PickupRow(n), DeliveryRow(n - 3)])
  }

  function OrderAfter(n: int): OrderStatus {
    if n == 0 then OrderPlanned else if n < 3 then PickupInProgress else if n == 3 then PickedUp else if n < 6 then Delivering else OrderCompleted
  }

  function ResourceAfter(n: int): ResourceStatus {
    if 0 < n < 6 then Active else Available
  }

  function AssignmentAfter(n: int): Assignment {
    Assignment(if n == 0 then AssignmentPlanned else if n < 6 then AssignmentActive else AssignmentEnded,
               if 1 <= n then Some(10) else None, if 6 <= n then Some(10) else None)
  }

  /** The tables after n calls. */
  function After(n: int): World {
    World(map[10 := PlanCurrent], map[101 := Place(ROUTE, 0), 102 := Place(ROUTE, 1)], map[ROUTE := RouteRow(n)],
          map[ORDER := Order(OrderAfter(n), Normal, 1000, 1)], map[1 := ResourceAfter(n)], map[1 := ResourceAfter(n)],
          map[1 := AssignmentAfter(n)])
  }

  function Calls(): seq<Call> {
    [Call(101, Arrive, 10), Call(101, StartService, 10), Call(101, Complete, 10),
     Call(102, Arrive, 10), Call(102, StartService, 10), Call(102, Complete, 10)]
  }

  /** Both stops are listed and every resource may be used. */
  lemma {:induction false} RouteRuns(n: nat)
    requires n < 6
    ensures ReusedRoutes.Runs(After(n), ROUTE)
  {
    assert ReusedRoutes.ListedAt(After(n), ROUTE, 0) && ReusedRoutes.ListedAt(After(n), ROUTE, 1);
  }

  lemma {:induction false} TimeIsOk(n: nat)
    requires n < 6
    ensures SequenceOk(RouteRow(n).stops, n / 3) && EventTimeOk(RouteRow(n).stops, n / 3, 10, Execution.Target(Calls()[n].action))
    ensures RouteRow(n).stops[n / 3].status == Expected(Calls()[n].action)
  {
    var stops := RouteRow(n).stops;
    assert stops[..1][..0] == [] && stops[..1][0] == stops[0];
  }

  lemma {:induction false} CallIsTaken(n: nat)
    requires n < 6
    ensures Takes(After(n), 101 + n / 3, Calls()[n].action, 10) && Ready(After(n), Place(ROUTE, n / 3))
    ensures After(n).index[101 + n / 3] == Place(ROUTE, n / 3)
  {
    RouteRuns(n);
    TimeIsOk(n);
  }

  lemma {:induction false} StopMoves(n: nat)
    requires n < 6
    ensures MovedStops(RouteRow(n), n / 3, Execution.Target(Calls()[n].action), 10) == RouteRow(n + 1).stops
    ensures Calls()[n].stopId == 101 + n / 3 && Calls()[n].at == 10
  {
  }

  /** The order stays far from the end of its window. */
  lemma {:induction false} RiskStays(n: nat, status: OrderStatus)
    requires 0 < n <= 6
    ensures var stops, orders := RouteRow(n).stops, map[ORDER := Order(status, Normal, 1000, 1)];
            Recalculated(0, stops, RouteDelay(stops, 10), orders, 2) == orders
  {
    var stops, orders := RouteRow(n).stops, map[ORDER := Order(status, Normal, 1000, 1)];
    assert stops[1..][1..] == [] && stops[1..][0] == stops[1];
    assert 0 <= RouteDelay(stops, 10) <= 10;
    assert Recalculated(0, stops, RouteDelay(stops, 10), orders, 0) == orders;
    assert Recalculated(0, stops, RouteDelay(stops, 10), orders, 1) == orders;
  }

  lemma {:induction false} OrderMoves(n: nat)
    requires n < 6
    ensures Advanced(Order(OrderAfter(n), Normal, 1000, 1), RouteRow(n).stops[n / 3].kind, Execution.Target(Calls()[n].action))
            == Order(OrderAfter(n + 1), Normal, 1000, 1)
  {
  }

  lemma {:induction false} RouteMoves(n: nat)
    requires n < 6
    ensures MovedRoute(RouteRow(n), n / 3, Execution.Target(Calls()[n].action), 10) == RouteRow(n + 1)
    ensures AllCompleted(RouteRow(n + 1).stops) <==> n == 5
  {
    StopMoves(n);
    assert n < 5 ==> RouteRow(n + 1).stops[1].status != Completed;
  }

  lemma {:induction false} OrdersMove(n: nat)
    requires n < 6 && Ready(After(n), Place(ROUTE, n / 3))
    ensures Effect(0, After(n), Place(ROUTE, n / 3), Execution.Target(Calls()[n].action), 10).orders == After(n + 1).orders
  {
    StopMoves(n);
    OrderMoves(n);
    RiskStays(n + 1, OrderAfter(n + 1));
    assert RouteRow(n).stops[n / 3].orderId == ORDER;
    assert After(n).orders[ORDER := Order(OrderAfter(n + 1), Normal, 1000, 1)] == map[ORDER := Order(OrderAfter(n + 1), Normal, 1000, 1)];
  }

  /** What an action does to the resources of its route. */
  ghost predicate ResourcesMoved(w: World, after: World, p: Place, starts: bool, ends: bool, t: Instant) {
    && Ready(w, p)
    && var route := w.routes[p.routeId];
       && after.vehicles == w.vehicles[route.vehicleId := MovedResource(MovedResource(w.vehicles[route.vehicleId], starts, false), false, ends)]
       && after.drivers == w.drivers[route.driverId := MovedResource(MovedResource(w.drivers[route.driverId], starts, false), false, ends)]
       && after.assignments == w.assignments[route.assignmentId :=
            MovedAssignment(MovedAssignment(w.assignments[route.assignmentId], starts, false, t), false, ends, t)]
  }

  lemma {:induction false} EffectOnResources(w: World, p: Place, target: StopStatus, t: Instant, starts: bool, ends: bool)
    requires Ready(w, p) && starts == (w.routes[p.routeId].status == RoutePlanned)
    requires ends == (target == Completed && AllCompleted(MovedStops(w.routes[p.routeId], p.at, target, t)))
    ensures ResourcesMoved(w, Effect(0, w, p, target, t), p, starts, ends, t)
  {
  }

  lemma {:induction false} ResourceMoves(n: nat)
    requires n < 6
    ensures MovedResource(MovedResource(ResourceAfter(n), n == 0, false), false, n == 5) == ResourceAfter(n + 1)
    ensures MovedAssignment(MovedAssignment(AssignmentAfter(n), n == 0, false, 10), false, n == 5, 10) == AssignmentAfter(n + 1)
  {
  }

  lemma {:induction false} Overwritten<T>(x: T, y: T)
    ensures map[1 as Id := x][1 := y] == map[1 as Id := y]
  {
  }

  lemma {:induction false} ResourcesAre(n: nat, after: World)
    requires n < 6 && ResourcesMoved(After(n), after, Place(ROUTE, n / 3), n == 0, n == 5, 10)
    ensures after.vehicles == After(n + 1).vehicles && after.drivers == After(n + 1).drivers && after.assignments == After(n + 1).assignments
  {
    ResourceMoves(n);
    Overwritten(ResourceAfter(n), ResourceAfter(n + 1));
    Overwritten(AssignmentAfter(n), AssignmentAfter(n + 1));
  }

  lemma {:induction false} RoutesAre(n: nat, after: World, target: StopStatus)
    requires n < 6 && RoutesMoved(After(n), after, Place(ROUTE, n / 3), target, 10)
    requires MovedRoute(RouteRow(n), n / 3, target, 10) == RouteRow(n + 1)
    ensures after.routes == After(n + 1).routes && after.plans == After(n + 1).plans && after.index == After(n + 1).index
  {
  }

  lemma {:induction false} MoveIs(n: nat, after: World, target: StopStatus)
    requires n < 6 && target == Execution.Target(Calls()[n].action) && RoutesMoved(After(n), after, Place(ROUTE, n / 3), target, 10)
    requires ResourcesMoved(After(n), after, Place(ROUTE, n / 3), n == 0, n == 5, 10) && after.orders == After(n + 1).orders
    ensures after == After(n + 1)
  {
    RouteMoves(n);
    RoutesAre(n, after, target);
    ResourcesAre(n, after);
  }

  lemma {:induction false} CallEnds(n: nat)
    requires n < 6
    ensures (n == 5) == (Execution.Target(Calls()[n].action) == Completed
                         && AllCompleted(MovedStops(After(n).routes[ROUTE], n / 3, Execution.Target(Calls()[n].action), 10)))
  {
    StopMoves(n);
    RouteMoves(n);
  }

  lemma {:induction false} CallMoves(n: nat, w: World, p: Place, target: StopStatus)
    requires n < 6 && w == After(n) && p == Place(ROUTE, n / 3) && target == Execution.Target(Calls()[n].action) && Ready(w, p)
    ensures Effect(0, w, p, target, 10) == After(n + 1)
  {
    CallEnds(n);
    EffectOnRoutes(0, w, p, target, 10);
    EffectOnResources(w, p, target, 10, n == 0, n == 5);
    OrdersMove(n);
    MoveIs(n, Effect(0, w, p, target, 10), target);
  }

  lemma {:induction false} CallSteps(n: nat)
    requires n < 6
    ensures Execution.Step(0, After(n), Calls()[n].stopId, Calls()[n].action, Calls()[n].at) == After(n + 1)
  {
    StopMoves(n);
    CallIsTaken(n);
    CallMoves(n, After(n), Place(ROUTE, n / 3), Execution.Target(Calls()[n].action));
  }

  lemma {:induction false} RunOneMore(w: World, calls: seq<Call>, n: nat)
    requires n < |calls|
    ensures Run(0, w, calls[..n + 1]) == Execution.Step(0, Run(0, w, calls[..n]), calls[n].stopId, calls[n].action, calls[n].at)
  {
    assert calls[..n + 1][..n] == calls[..n];
  }

  lemma {:induction false} RunIs(n: nat)
    requires n <= 6
    ensures Run(0, After(0), Calls()[..n]) == After(n)
  {
    if 0 < n {
      RunIs(n - 1);
      RunOneMore(After(0), Calls(), n - 1);
      CallSteps(n - 1);
    }
  }

  // ----- the recovery -----

  /** The delay of 700 seconds was reported before the pickup; recovery starts when the order is delivered
      and the vehicle, free again, has a new assignment. */
  function Read(): RecoveryContext.Base {
    RecoveryContext.Base(800, map[ORDER := RecoveryContext.BaseRow(WANTED, MERCHANT, OrderCompleted, Some(ROUTE))],
                         map[ROUTE := RouteRow(6)], {}, map[ORDER := RecoveryContext.Impact(true, false, Some(ROUTE))], None,
                         Some(RecoveryContext.Delay(MERCHANT, 700)))
  }

  function Again(): Candidate.Target {
    Candidate.Target(ORDER, SHOP, CUSTOMER, 700, 0, 0, 1000, 0, 1, Some(ROUTE), None, None)
  }

  function Delayed(): Candidate.Recovery {
    Candidate.Recovery(3, None, None, 10, 11, 800, [Again()], [Candidate.VehicleFact(11, 1, 1, 5, 0, CUSTOMER, 800, 1000)], [RouteRow(6)],
                       [Candidate.Member(ORDER, Some(ROUTE), None)])
  }

  function Witness(scope: RecoveryContext.Scope): Replan {
    Replan(Planned(), 0, After(0), Calls(), Read(), scope, {ORDER}, Delayed())
  }

  lemma {:induction false} RowsAre()
    ensures Planned().Ok() && Planned().Rows() == [RouteRow(0)]
  {
    PlanIsOk();
    TablesAre();
    var route := Result().routes[0];
    assert Buildable(Tables(), route);
    assert NewRoutes(Tables(), ROUTE, Result().routes, 1) == [NewRoute(Tables(), ROUTE, 1, route)];
    StopsAre(route);
  }

  lemma {:induction false} StopsAre(route: SolverRoute)
    requires route == Result().routes[0] && Buildable(Tables(), route)
    ensures NewRoute(Tables(), ROUTE, 1, route) == RouteRow(0)
  {
    TablesAre();
    RowMadeFrom(Tables(), ROUTE, 1, route, 0);
    RowMadeFrom(Tables(), ROUTE, 1, route, 1);
    NewStopAt(Tables().orders, 0, ROUTE, route.stops, 2, 0);
    NewStopAt(Tables().orders, 0, ROUTE, route.stops, 2, 1);
    OriginOf(ROUTE + 1, route.stops, 1, ORDER, 0);
    assert NewRoute(Tables(), ROUTE, 1, route).stops == [PickupRow(0), DeliveryRow(-3)];
  }

  lemma {:induction false} PlanIsInstalled()
    ensures CapacitySafety.Installed(After(0), Tables(), [RouteRow(0)])
  {
    TablesAre();
    assert [RouteRow(0)][0].id == ROUTE;
  }

  lemma {:induction false} RunEnds()
    ensures Run(0, After(0), Calls()) == After(6)
  {
    RunIs(6);
    assert Calls()[..6] == Calls();
  }

  lemma {:induction false} MembersAre()
    ensures AllBuildable(Day(), Result(), Tables(), ROUTE) && NewMemberships(Day(), Result(), Tables(), ROUTE) == [OnRouteRow(ORDER, ROUTE)]
  {
    PlanIsOk();
    var routes := Result().routes;
    var stops := routes[0].stops;
    assert WithStops(map[], ROUTE, stops, 0) == map[];
    assert WithStops(map[], ROUTE, stops, 1) == map[ORDER := ROUTE];
    assert WithStops(map[], ROUTE, stops, 2) == map[ORDER := ROUTE];
    assert RouteByOrder(ROUTE, routes, 0) == map[] && RouteIdAt(ROUTE, routes, 0) == ROUTE;
    assert RouteByOrder(ROUTE, routes, 1) == map[ORDER := ROUTE];
    MembershipAt(RouteByOrder(ROUTE, routes, 1), ReasonByOrder([]), Day().orders, 1, 0);
  }

  /** The context brings the completed order in, in every scope, with a pickup and a delivery to plan. */
  lemma {:induction false} ContextBringsItIn(scope: RecoveryContext.Scope)
    ensures forall o :: RecoveryContext.InScope(Read(), scope, o) <==> o == ORDER
    ensures RecoveryContext.FactsOf(Read(), Ascending({ORDER}), [Again()])
  {
    assert RecoveryContext.Affected(Read(), ORDER);
    AscendingUnique([ORDER], {ORDER});
  }

  lemma {:induction false} TablesAreRead()
    ensures ReadTables(Read(), After(6), [OnRouteRow(ORDER, ROUTE)])
  {
    var members := [OnRouteRow(ORDER, ROUTE)];
    assert MemberRead(Read(), members, 0, ORDER);
  }

  lemma {:induction false} WitnessIsPlanned(scope: RecoveryContext.Scope)
    ensures Witness(scope).Planned() && Witness(scope).RouteIds() == [ROUTE] && Witness(scope).After() == After(6)
  {
    RowsAre();
    PlanIsOk();
    PlanIsInstalled();
    RunEnds();
  }

  /** What a context is read from. */
  ghost predicate ReadOff(x: Replan, w: World, ids: seq<Id>, members: seq<Membership>) {
    && ReadTables(x.b, w, members) && (forall o :: o in x.targets <==> RecoveryContext.InScope(x.b, x.scope, o))
    && RecoveryContext.FactsOf(x.b, Ascending(x.targets), x.c.targets) && RowsIn(w, ids) && x.c.routes == PlanRoutes(w, ids)
  }

  lemma {:induction false} MaterializedWhen(x: Replan, w: World, ids: seq<Id>, members: seq<Membership>)
    requires x.Planned() && x.After() == w && x.RouteIds() == ids && ReadOff(x, w, ids, members)
    requires NewMemberships(x.origin.facts, x.origin.result, x.Tables(), x.origin.first) == members
    ensures x.Ok()
  {
  }

  lemma {:induction false} RoutesAreListed()
    ensures RowsIn(After(6), [ROUTE]) && Delayed().routes == PlanRoutes(After(6), [ROUTE])
  {
    assert [ROUTE][..0] == [];
  }

  lemma {:induction false} WitnessIsRead(scope: RecoveryContext.Scope)
    ensures ReadOff(Witness(scope), After(6), [ROUTE], [OnRouteRow(ORDER, ROUTE)])
  {
    TablesAreRead();
    ContextBringsItIn(scope);
    RoutesAreListed();
  }

  lemma {:induction false} ItIsFinished()
    ensures !NoneFinished(Read())
  {
    assert RecoveryContext.Affected(Read(), ORDER) && ReplannedOrders.Finished(Read(), ORDER);
  }

  /** All of it is a recovery of a stored plan, read after its last stop, whose affected order is completed. */
  lemma {:induction false} WitnessIsOk(scope: RecoveryContext.Scope)
    ensures Witness(scope).Ok() && !NoneFinished(Witness(scope).b)
  {
    WitnessIsPlanned(scope);
    MembersAre();
    WitnessIsRead(scope);
    MaterializedWhen(Witness(scope), After(6), [ROUTE], [OnRouteRow(ORDER, ROUTE)]);
    ItIsFinished();
  }

  // ----- the candidate -----

  function Setting(): Candidate.Frame {
    Candidate.Frame(Delayed(), 900, None)
  }

  function TheAnswer(first: Id): Answer {
    Answer(Setting(), [SHOP, CUSTOMER], NOWHERE, NOWHERE, Result(), first)
  }

  function DelayedOrder(): SolverOrder {
    SolverOrder(ORDER, Some(SHOP), None, CUSTOMER, 0, 0, 200, 0, 0, 0, 1, None)
  }

  function FreeVehicle(): SolverVehicle {
    SolverVehicle(1, 5, CUSTOMER, 0, 200, 0)
  }

  lemma {:induction false} RecoveryInputIs()
    ensures Candidate.RecoveryInput(Delayed(), [SHOP, CUSTOMER], NOWHERE, NOWHERE) == OneOrder(DelayedOrder(), FreeVehicle(), SHOP, CUSTOMER)
  {
    var c := Delayed();
    assert c.targets[..0] == [] && c.vehicles[..0] == [];
    assert Candidate.AsRecoveryOrders(c.now, c.targets) == [DelayedOrder()];
    assert Candidate.AsRecoveryVehicles(c.now, c.vehicles) == [FreeVehicle()];
  }

  lemma {:induction false} AnswerIsTrip()
    ensures Result() == Only(Trip(DelayedOrder(), FreeVehicle(), SHOP, CUSTOMER))
    ensures Timeless(DelayedOrder(), CUSTOMER) && Idle(FreeVehicle(), SHOP, CUSTOMER) && Carries(DelayedOrder(), FreeVehicle(), SHOP)
  {
  }

  lemma {:induction false} AnswerIsCertified()
    ensures Certified(Candidate.RecoveryInput(Delayed(), [SHOP, CUSTOMER], NOWHERE, NOWHERE), Result())
  {
    RecoveryInputIs();
    AnswerIsTrip();
    TripIsCertified(DelayedOrder(), FreeVehicle(), SHOP, CUSTOMER);
  }

  function TheJob(): Candidate.Job {
    Candidate.BaseJob(RouteRow(6), Candidate.RoutesByVehicle(Result().routes))
  }

  lemma {:induction false} JobIs()
    ensures TheJob().solver == Some(Result().routes[0]) && 1 in Candidate.BaseVehicles(Delayed().routes)
  {
    assert Result().routes[..0] == [];
    assert Delayed().routes[0].vehicleId == 1;
  }

  lemma {:induction false} DraftIs(first: Id)
    ensures Candidate.FinalDraft(Setting(), Result(), first) == Candidate.WriteNext(Setting(), Candidate.Written([], map[], first), TheJob())
  {
    JobIs();
    var f, byVehicle, start := Setting(), Candidate.RoutesByVehicle(Result().routes), Candidate.Written([], map[], first);
    assert Candidate.BaseDraft(f, byVehicle, first, 0) == start;
    assert Candidate.BaseDraft(f, byVehicle, first, 1) == Candidate.WriteNext(f, start, TheJob());
    assert Candidate.LeftoverDraft(f, Result().routes, Candidate.WriteNext(f, start, TheJob()), 0) == Candidate.WriteNext(f, start, TheJob());
  }

  lemma {:induction false} RowDelivers(first: Id) returns (row: Route)
    requires Setting().Buildable(TheJob())
    ensures row == Setting().Row(TheJob(), first, 1)
    ensures CandidateReview.HasStopOf(row, ORDER) && CandidateReview.Delivers(row, ORDER)
  {
    JobIs();
    row := Setting().Row(TheJob(), first, 1);
    CandidateReview.WrittenRow(Setting(), TheJob(), first, 1);
    CandidateLaws.FreshAt(Setting().SpliceOf(TheJob()), row.id, 2, 1);
    assert row.stops[|Setting().Kept(TheJob())| + 1].orderId == ORDER;
  }

  lemma {:induction false} DraftIsWritten(first: Id)
    ensures Candidate.FinalDraft(Setting(), Result(), first).Written?
  {
    AnswerIsCertified();
    CandidateLaws.LookupsSucceedIffGoodsAreLoaded(Setting(), [SHOP, CUSTOMER], NOWHERE, NOWHERE, Result(), first);
  }

  lemma {:induction false} FirstRow(f: Candidate.Frame, job: Candidate.Job, first: Id)
    requires Candidate.WriteNext(f, Candidate.Written([], map[], first), job).Written?
    ensures f.Buildable(job) && Candidate.WriteNext(f, Candidate.Written([], map[], first), job).rows == [f.Row(job, first, 1)]
  {
  }

  lemma {:induction false} OneRowIsWritten(first: Id) returns (row: Route)
    ensures Candidate.FinalDraft(Setting(), Result(), first).Written? && Candidate.FinalDraft(Setting(), Result(), first).rows == [row]
    ensures CandidateReview.HasStopOf(row, ORDER) && CandidateReview.Delivers(row, ORDER)
  {
    DraftIsWritten(first);
    DraftIs(first);
    FirstRow(Setting(), TheJob(), first);
    row := RowDelivers(first);
  }

  lemma {:induction false} AnswerIsOk(first: Id)
    ensures TheAnswer(first).Ok() && TheAnswer(first).f.c == Delayed()
  {
    AnswerIsCertified();
    var row := OneRowIsWritten(first);
  }

  lemma {:induction false} CandidateIsStored(version: nat, first: Id)
    ensures Candidate.CandidateOf(Setting(), Result(), version, first).Some?
    ensures Candidate.CandidateOf(Setting(), Result(), version, first).value.routes == Candidate.FinalDraft(Setting(), Result(), first).rows
    ensures CandidateReview.Consistent(Candidate.CandidateOf(Setting(), Result(), version, first).value, Delayed().members)
  {
    var row := OneRowIsWritten(first);
    CandidateReview.FinalDraftOk(Setting(), Result(), first);
    assert Delayed().members[0].orderId == ORDER;
    assert Candidate.FinalDraft(Setting(), Result(), first).rows[0] == row;
    CandidateReview.PassesTheGateIff(Setting(), Result(), version, first);
  }

  /** The result is accepted with every order assigned, the candidate is stored and passes the gate, yet it
      delivers order 8 a second time and cannot be compared with the plan. */
  lemma {:induction false} CompletedOrderIsDeliveredTwice(scope: RecoveryContext.Scope, version: nat, first: Id)
    ensures Witness(scope).Ok() && TheAnswer(first).Ok() && TheAnswer(first).f.c == Witness(scope).c
    ensures Candidate.CandidateOf(Setting(), Result(), version, first).Some?
    ensures var candidate := Candidate.CandidateOf(Setting(), Result(), version, first).value;
            && CandidateReview.Consistent(candidate, Delayed().members)
            && !Comparison.DistinctKeys(Comparison.Actions(candidate.routes))
  {
    WitnessIsOk(scope);
    AnswerIsOk(first);
    RecoveryIsComparableIff(Witness(scope), TheAnswer(first));
    CandidateIsStored(version, first);
  }
}
