/** materialize_recovery_context: which orders, vehicles and loads a replanning scope brings in. */
module RecoveryContext {
  import opened Ordering
  import opened Domain
  import opened Optimization
  import opened Finalizer
  import opened Candidate
  import opened CapacitySafety
  import FinalizedPlan
  import opened Execution
  import opened ExecutionInvariants
  import Protocol

  type Scope = Protocol.Scope

  /** A membership of the base plan with its order row. */
  datatype BaseRow = BaseRow(order: PlanningOrder, merchantId: Id, status: OrderStatus, routeId: Option<Id>)

  /** A row of incident_affected_orders. */
  datatype Impact = Impact(requiresReplanning: bool, handover: bool, originalRoute: Option<Id>)

  /** The merchant of a delay and when its orders will be ready. */
  datatype Delay = Delay(merchantId: Id, readyAt: Instant)

  /** A vehicle with its driver over a period. */
  datatype Duty = Duty(assignmentId: Id, vehicleId: Id, driverId: Id, capacity: int, start: Id, from: Instant, until: Option<Instant>,
                       usable: bool)

  datatype Base = Base(
    now: Instant,
    rows: map<Id, BaseRow>,
    routes: map<Id, Route>,
    activeVehicles: set<Id>,
    impacts: map<Id, Impact>,
    incidentLocation: Option<Id>,
    delay: Option<Delay>)

  datatype ContextError = NothingToReplan | NotAMember | NoExecutingRoute | NoHandoverPlace

  datatype Result<+T> = Ok(value: T) | Refused(error: ContextError)

  // ----- which orders -----

  predicate Affected(b: Base, o: Id) {
    o in b.impacts && b.impacts[o].requiresReplanning
  }

  predicate OnAffectedRoute(b: Base, r: Option<Id>) {
    r.Some? && exists o :: o in b.impacts && b.impacts[o].requiresReplanning && b.impacts[o].originalRoute == r
  }

  predicate OnActiveRoute(b: Base, r: Option<Id>) {
    r.Some? && r.value in b.routes && b.routes[r.value].vehicleId in b.activeVehicles
  }

  predicate Unfinished(b: Base, o: Id) {
    o in b.rows && b.rows[o].status != OrderCompleted
  }

  /** What a scope is meant to cover. */
  predicate InScope(b: Base, scope: Scope, o: Id) {
    || Affected(b, o)
    || (Unfinished(b, o) &&
         (|| OnAffectedRoute(b, b.rows[o].routeId)
          || (scope == Protocol.CrossRoute && OnActiveRoute(b, b.rows[o].routeId))
          || scope == Protocol.AllRemaining))
  }

  /** `target_ids`. */
  method CollectTargets(b: Base, scope: Scope) returns (targets: set<Id>)
    ensures forall o :: o in targets <==> InScope(b, scope, o)
  {
    var affectedRoutes := set o | o in b.impacts && b.impacts[o].requiresReplanning && b.impacts[o].originalRoute.Some? :: b.impacts[o].originalRoute.value;
    targets := set o | o in b.impacts && b.impacts[o].requiresReplanning;
    targets := targets + set o | o in b.rows && b.rows[o].routeId.Some? && b.rows[o].routeId.value in affectedRoutes && b.rows[o].status != OrderCompleted;
    if scope == Protocol.CrossRoute {
      var activeRoutes := set r | r in b.routes && b.routes[r].vehicleId in b.activeVehicles;
      targets := targets + set o | o in b.rows && b.rows[o].routeId.Some? && b.rows[o].routeId.value in activeRoutes && b.rows[o].status != OrderCompleted;
    }
    if scope == Protocol.AllRemaining {
      targets := targets + set o | o in b.rows && b.rows[o].status != OrderCompleted;
    }
    forall o ensures o in targets <==> InScope(b, scope, o) {
      if o in b.rows { AffectedRoutesAre(b, affectedRoutes, b.rows[o].routeId); }
    }
  }

  lemma {:induction false} AffectedRoutesAre(b: Base, affectedRoutes: set<Id>, r: Option<Id>)
    requires affectedRoutes == set o | o in b.impacts && b.impacts[o].requiresReplanning && b.impacts[o].originalRoute.Some? :: b.impacts[o].originalRoute.value
    ensures r.Some? ==> (r.value in affectedRoutes <==> OnAffectedRoute(b, r))
  {
  }

  /** A wider scope takes no order out. */
  lemma {:induction false} WideningKeepsTargets(b: Base, scope: Scope, o: Id)
    requires Protocol.NextScope(scope).Some? && InScope(b, scope, o)
    ensures InScope(b, Protocol.NextScope(scope).value, o)
  {
  }

  // ----- the facts of one order -----

  predicate HandsOver(b: Base, o: Id) {
    o in b.impacts && b.impacts[o].handover
  }

  predicate OnBoard(row: BaseRow) {
    row.status in {PickedUp, Delivering}
  }

  predicate HasRoute(b: Base, row: BaseRow) {
    row.routeId.Some? && row.routeId.value in b.routes
  }

  /** Why an order cannot be replanned. */
  function Obstacle(b: Base, o: Id): Option<ContextError> {
    if o !in b.rows then Some(NotAMember)
    else if OnBoard(b.rows[o]) && !HandsOver(b, o) && !HasRoute(b, b.rows[o]) then Some(NoExecutingRoute)
    else if HandsOver(b, o) && b.incidentLocation == None then Some(NoHandoverPlace)
    else None
  }

  /** The order, ready when the delayed merchant says so. */
  function PostponedOrder(b: Base, row: BaseRow): PlanningOrder {
    if b.delay.Some? && row.merchantId == b.delay.value.merchantId then row.order.(readyAt := b.delay.value.readyAt) else row.order
  }

  function FactOf(b: Base, o: Id): Target
    requires Obstacle(b, o) == None
  {
    var row := b.rows[o];
    TargetOf(PostponedOrder(b, row), row.status, if HasRoute(b, row) then Some(b.routes[row.routeId.value]) else None,
             if HandsOver(b, o) then b.incidentLocation else None)
  }

  ghost predicate FactsOf(b: Base, ids: seq<Id>, facts: seq<Target>) {
    |facts| == |ids| && forall k :: 0 <= k < |ids| ==> Obstacle(b, ids[k]) == None && facts[k] == FactOf(b, ids[k])
  }

  /** The first obstacle in the order of the ids. */
  ghost predicate FirstObstacle(b: Base, ids: seq<Id>, error: ContextError) {
    exists k :: 0 <= k < |ids| && Obstacle(b, ids[k]) == Some(error) && forall j :: 0 <= j < k ==> Obstacle(b, ids[j]) == None
  }

  /** The loop over the sorted target ids. */
  method CollectFacts(b: Base, targets: set<Id>) returns (result: Result<seq<Target>>)
    ensures match result
            case Ok(facts) => FactsOf(b, Ascending(targets), facts)
            case Refused(error) => FirstObstacle(b, Ascending(targets), error)
  {
    var rest := targets;
    var facts: seq<Target> := [];
    ghost var ids: seq<Id> := [];
    while rest != {}
      invariant Picked(ids, rest, targets) && FactsOf(b, ids, facts)
      decreases |rest|
    {
      var o := LeastOf(rest);
      var obstacle := Obstacle(b, o);
      if obstacle.Some? {
        ObstacleIsFirst(b, targets, ids, rest, o);
        return Refused(obstacle.value);
      }
      PickNext(ids, rest, targets, o);
      facts := facts + [FactOf(b, o)];
      ids, rest := ids + [o], rest - {o};
    }
    AscendingUnique(ids, targets);
    result := Ok(facts);
  }

  /** The ids taken so far are the beginning of the sorted ids. */
  lemma {:induction false} PickedIsPrefix(ids: seq<Id>, rest: set<Id>, all: set<Id>)
    requires Picked(ids, rest, all)
    ensures Ascending(all) == ids + Ascending(rest)
  {
    AscendingSorts(rest);
    IncreasingConcat(ids, Ascending(rest));
    AscendingUnique(ids + Ascending(rest), all);
  }

  lemma {:induction false} ObstacleIsFirst(b: Base, targets: set<Id>, ids: seq<Id>, rest: set<Id>, o: Id)
    requires Picked(ids, rest, targets) && IsLeast(o, rest) && Obstacle(b, o).Some?
    requires forall k :: 0 <= k < |ids| ==> Obstacle(b, ids[k]) == None
    ensures FirstObstacle(b, Ascending(targets), Obstacle(b, o).value)
  {
    PickedIsPrefix(ids, rest, targets);
    assert Least(rest) == o;
    assert Ascending(targets)[|ids|] == o;
  }

  /** No order is to be replanned, or some target has an obstacle. */
  ghost predicate Obstructed(b: Base, scope: Scope) {
    (forall o :: !Affected(b, o)) || exists o :: InScope(b, scope, o) && Obstacle(b, o).Some?
  }

  /** The part of `materialize_recovery_context` that reads the orders: refused exactly when obstructed. */
  method ReadTargets(b: Base, scope: Scope) returns (result: Result<seq<Target>>, ghost targets: set<Id>)
    ensures result.Refused? <==> Obstructed(b, scope)
    ensures result.Ok? ==> (forall o :: o in targets <==> InScope(b, scope, o)) && FactsOf(b, Ascending(targets), result.value)
    ensures result == Refused(NothingToReplan) <==> forall o :: !Affected(b, o)
  {
    targets := {};
    var affected := set o | o in b.impacts && b.impacts[o].requiresReplanning;
    assert forall o :: o in affected <==> Affected(b, o);
    if affected == {} {
      return Refused(NothingToReplan), targets;
    }
    assert exists o :: o in affected;
    var found := CollectTargets(b, scope);
    targets := found;
    result := CollectFacts(b, found);
    AscendingSorts(targets);
    ObstructedIff(b, scope, targets);
  }

  lemma {:induction false} ObstructedIff(b: Base, scope: Scope, targets: set<Id>)
    requires (forall o :: o in targets <==> InScope(b, scope, o)) && exists o :: Affected(b, o)
    ensures Obstructed(b, scope) <==> exists k :: 0 <= k < |Ascending(targets)| && Obstacle(b, Ascending(targets)[k]).Some?
  {
    AscendingSorts(targets);
    if o :| InScope(b, scope, o) && Obstacle(b, o).Some? {
      assert o in Ascending(targets);
    }
    if k :| 0 <= k < |Ascending(targets)| && Obstacle(b, Ascending(targets)[k]).Some? {
      assert Ascending(targets)[k] in targets;
    }
  }

  /** What obstructs a scope obstructs the wider one. */
  lemma {:induction false} WideningKeepsObstacles(b: Base, scope: Scope)
    requires Protocol.NextScope(scope).Some? && Obstructed(b, scope)
    ensures Obstructed(b, Protocol.NextScope(scope).value)
  {
    if o :| InScope(b, scope, o) && Obstacle(b, o).Some? {
      WideningKeepsTargets(b, scope, o);
    }
  }

  // ----- goods on board -----

  function LoadOn(facts: seq<Target>, v: Id): int {
    if facts == [] then 0
    else LoadOn(facts[..|facts| - 1], v) + if facts[|facts| - 1].requiredVehicle == Some(v) then facts[|facts| - 1].demand else 0
  }

  predicate Loads(facts: seq<Target>, v: Id) {
    exists k :: 0 <= k < |facts| && facts[k].requiredVehicle == Some(v)
  }

  /** `onboard_loads`. */
  method OnboardLoads(facts: seq<Target>) returns (loads: map<Id, int>)
    ensures forall v :: v in loads <==> Loads(facts, v)
    ensures forall v :: (if v in loads then loads[v] else 0) == LoadOn(facts, v)
  {
    loads := map[];
    var k := 0;
    while k < |facts|
      invariant 0 <= k <= |facts|
      invariant forall v :: v in loads <==> Loads(facts[..k], v)
      invariant forall v :: (if v in loads then loads[v] else 0) == LoadOn(facts[..k], v)
    {
      LoadsOneMore(facts, k);
      var fact := facts[k];
      if fact.requiredVehicle.Some? {
        var v := fact.requiredVehicle.value;
        loads := loads[v := (if v in loads then loads[v] else 0) + fact.demand];
      }
      k := k + 1;
    }
    assert facts[..|facts|] == facts;
  }

  lemma {:induction false} LoadsOneMore(facts: seq<Target>, k: nat)
    requires k < |facts|
    ensures forall v: Id :: Loads(facts[..k + 1], v) <==> Loads(facts[..k], v) || facts[k].requiredVehicle == Some(v)
    ensures forall v: Id :: LoadOn(facts[..k + 1], v) == LoadOn(facts[..k], v) + if facts[k].requiredVehicle == Some(v) then facts[k].demand else 0
  {
    assert facts[..k + 1][..k] == facts[..k];
    forall v: Id ensures Loads(facts[..k + 1], v) <==> Loads(facts[..k], v) || facts[k].requiredVehicle == Some(v) {
      if j :| 0 <= j < k && facts[..k][j].requiredVehicle == Some(v) { assert facts[..k + 1][j].requiredVehicle == Some(v); }
      if facts[k].requiredVehicle == Some(v) { assert facts[..k + 1][k].requiredVehicle == Some(v); }
    }
  }

  ghost function Carried(b: Base, targets: set<Id>, v: Id): set<Id> {
    set o | o in targets && Obstacle(b, o) == None && FactOf(b, o).requiredVehicle == Some(v)
  }

  ghost function RowDemands(b: Base): map<Id, int> {
    map o | o in b.rows :: b.rows[o].order.demand
  }

  lemma {:induction false} CarriedSnoc(b: Base, ids: seq<Id>, last: Id, v: Id)
    requires Obstacle(b, last) == None
    ensures Elements(ids + [last]) == Elements(ids) + {last}
    ensures Carried(b, Elements(ids + [last]), v)
            == Carried(b, Elements(ids), v) + if FactOf(b, last).requiredVehicle == Some(v) then {last} else {}
  {
    forall x ensures x in Elements(ids + [last]) <==> x in Elements(ids) || x == last {
    }
  }

  /** The load of a vehicle is the total demand of the orders it must deliver itself. */
  lemma {:induction false} LoadIsTheOrdersCarried(b: Base, ids: seq<Id>, facts: seq<Target>, v: Id)
    requires Increasing(ids) && FactsOf(b, ids, facts)
    ensures Carried(b, Elements(ids), v) <= RowDemands(b).Keys
    ensures LoadOn(facts, v) == Total(RowDemands(b), Carried(b, Elements(ids), v))
  {
    if ids == [] {
      assert Carried(b, Elements(ids), v) == {};
    } else {
      var front, last := ids[..|ids| - 1], ids[|ids| - 1];
      LoadIsTheOrdersCarried(b, front, facts[..|facts| - 1], v);
      assert ids == front + [last] && last !in front;
      CarriedSnoc(b, front, last, v);
      if FactOf(b, last).requiredVehicle == Some(v) {
        TotalAdd(RowDemands(b), Carried(b, Elements(front), v), last);
      } else {
        assert Carried(b, Elements(ids), v) == Carried(b, Elements(front), v);
      }
    }
  }

  // ----- the initial load of a vehicle -----

  /** The base as it is read from the tables; demands are positive in the table. */
  ghost predicate ReadFrom(b: Base, w: World) {
    && b.rows.Keys == w.orders.Keys
    && (forall o :: o in b.rows ==> RowReadFrom(b.rows[o], w, o))
    && (forall r :: r in b.routes ==> r in w.routes && b.routes[r].vehicleId == w.routes[r].vehicleId)
    && (forall r, q :: r in w.routes && q in w.routes && w.routes[r].vehicleId == w.routes[q].vehicleId ==> r == q)
  }

  ghost predicate RowReadFrom(row: BaseRow, w: World, o: Id) {
    && o in w.orders && row.status == w.orders[o].status && row.order.demand == w.orders[o].demand && 0 < row.order.demand
    && (row.routeId.Some? && row.routeId.value in w.routes ==> ServedBy(w, row.routeId.value, o))
  }

  ghost predicate ServedBy(w: World, r: Id, o: Id)
    requires r in w.routes
  {
    exists k :: 0 <= k < |w.routes[r].stops| && w.routes[r].stops[k].orderId == o
  }

  /** What a vehicle must deliver itself is in transit on its route. */
  lemma {:induction false} CarriedIsInTransit(b: Base, w: World, targets: set<Id>, r: Id)
    requires ReadFrom(b, w) && r in w.routes
    ensures Carried(b, targets, w.routes[r].vehicleId) <= InTransit(w, r)
  {
    forall o | o in Carried(b, targets, w.routes[r].vehicleId) ensures o in InTransit(w, r) {
      var row := b.rows[o];
      assert RowReadFrom(row, w, o);
      assert row.routeId.value in b.routes && row.routeId.value == r;
      var k :| 0 <= k < |w.routes[r].stops| && w.routes[r].stops[k].orderId == o;
    }
  }

  lemma {:induction false} LessIsLighter(quantity: map<nat, int>, s: set<nat>, all: set<nat>)
    requires s <= all <= quantity.Keys && forall x :: x in all ==> 0 <= quantity[x]
    ensures 0 <= Total(quantity, s) <= Total(quantity, all)
    decreases |all|
  {
    if s == all {
      if s != {} {
        TotalRemove(quantity, s, Least(s));
        LessIsLighter(quantity, s - {Least(s)}, s - {Least(s)});
      }
    } else {
      assert !(all <= s);
      var x :| x in all && x !in s;
      TotalRemove(quantity, all, x);
      LessIsLighter(quantity, s, all - {x});
    }
  }

  /** Wherever execution stands, the initial load a recovery computes for a vehicle is not negative
      and within the capacity stored with its route. */
  lemma {:induction false} InitialLoadFits(threshold: nat, w: World, c: Context, ids: seq<Id>, result: SolverResult, calls: seq<Call>, i: nat,
      b: Base, targets: set<Id>, facts: seq<Target>)
    requires Stored(w, c, ids, result.routes) && FinalizedPlan.Routed(c.orders, c.pairs, result) && i < |ids|
    requires ReadFrom(b, Run(threshold, w, calls)) && FactsOf(b, Ascending(targets), facts)
    ensures var after := Run(threshold, w, calls);
            && ids[i] in after.routes
            && 0 <= LoadOn(facts, after.routes[ids[i]].vehicleId) <= after.routes[ids[i]].capacity
  {
    var after := Run(threshold, w, calls);
    StoredPlanIsSafe(threshold, w, c, ids, result, calls, i);
    var v := after.routes[ids[i]].vehicleId;
    AscendingSorts(targets);
    assert Elements(Ascending(targets)) == targets;
    LoadIsTheOrdersCarried(b, Ascending(targets), facts, v);
    CarriedIsInTransit(b, after, targets, ids[i]);
    DemandsAreRead(b, after);
    LessIsLighter(StoredDemands(after), Carried(b, targets, v), InTransit(after, ids[i]));
  }

  lemma {:induction false} DemandsAreRead(b: Base, w: World)
    requires ReadFrom(b, w)
    ensures RowDemands(b) == StoredDemands(w) && forall o :: o in w.orders ==> 0 < StoredDemands(w)[o]
  {
    forall o | o in w.orders ensures o in b.rows && b.rows[o].order.demand == w.orders[o].demand && 0 < w.orders[o].demand {
      assert o in b.rows.Keys;
      assert RowReadFrom(b.rows[o], w, o);
    }
  }

  // ----- which vehicles -----

  /** `planning_end`. */
  function PlanningEnd(facts: seq<Target>): Instant
    requires facts != []
  {
    var last := facts[|facts| - 1].windowEnd + facts[|facts| - 1].deliveryService;
    if |facts| == 1 then last else Max(PlanningEnd(facts[..|facts| - 1]), last)
  }

  /** On duty in the planning period, usable, and in scope. */
  predicate Usable(b: Base, scope: Scope, end: Instant, d: Duty) {
    && d.from <= end && (d.until.Some? ==> b.now < d.until.value)
    && d.usable
    && (scope == Protocol.AffectedRoute ==> exists r :: r in b.routes && OnAffectedRoute(b, Some(r)) && b.routes[r].vehicleId == d.vehicleId)
    && b.now <= Or(d.until, end)
  }

  /** A usable vehicle with the goods it has on board. */
  function VehicleFactFor(b: Base, facts: seq<Target>, d: Duty): VehicleFact
    requires facts != []
  {
    VehicleFact(d.assignmentId, d.vehicleId, d.driverId, d.capacity, LoadOn(facts, d.vehicleId), d.start,
                Max(d.from, b.now), Or(d.until, PlanningEnd(facts)))
  }

  function VehicleFactsFor(b: Base, scope: Scope, facts: seq<Target>, duties: seq<Duty>): seq<VehicleFact>
    requires facts != []
  {
    if duties == [] then []
    else
      var last := duties[|duties| - 1];
      VehicleFactsFor(b, scope, facts, duties[..|duties| - 1])
      + if Usable(b, scope, PlanningEnd(facts), last) then [VehicleFactFor(b, facts, last)] else []
  }

  /** The part that collects the vehicles. */
  method CollectVehicles(b: Base, scope: Scope, facts: seq<Target>, duties: seq<Duty>) returns (vehicles: seq<VehicleFact>)
    requires facts != []
    ensures vehicles == VehicleFactsFor(b, scope, facts, duties)
  {
    vehicles := [];
    var end := LatestEnd(facts);
    var loads := OnboardLoads(facts);
    for i := 0 to |duties|
      invariant vehicles == VehicleFactsFor(b, scope, facts, duties[..i])
    {
      assert duties[..i + 1][..i] == duties[..i];
      var d := duties[i];
      if Usable(b, scope, end, d) {
        var load := if d.vehicleId in loads then loads[d.vehicleId] else 0;
        vehicles := vehicles + [VehicleFact(d.assignmentId, d.vehicleId, d.driverId, d.capacity, load, d.start,
                                            Max(d.from, b.now), Or(d.until, end))];
      }
    }
    assert duties[..|duties|] == duties;
  }

  method LatestEnd(facts: seq<Target>) returns (end: Instant)
    requires facts != []
    ensures end == PlanningEnd(facts)
  {
    end := facts[0].windowEnd + facts[0].deliveryService;
    assert facts[..1] == [facts[0]];
    for k := 1 to |facts|
      invariant end == PlanningEnd(facts[..k])
    {
      assert facts[..k + 1][..k] == facts[..k];
      end := Max(end, facts[k].windowEnd + facts[k].deliveryService);
    }
    assert facts[..|facts|] == facts;
  }

  lemma {:induction false} EndIsLatest(facts: seq<Target>, k: nat)
    requires k < |facts|
    ensures facts[k].windowEnd + facts[k].deliveryService <= PlanningEnd(facts)
    ensures exists j :: 0 <= j < |facts| && PlanningEnd(facts) == facts[j].windowEnd + facts[j].deliveryService
  {
    var n := |facts| - 1;
    assert facts[n].windowEnd + facts[n].deliveryService <= PlanningEnd(facts);
    if 0 < n {
      EndIsLatest(facts[..n], if k < n then k else 0);
      var j :| 0 <= j < n && PlanningEnd(facts[..n]) == facts[..n][j].windowEnd + facts[..n][j].deliveryService;
      assert facts[j] == facts[..n][j];
    }
  }

  /** A wider scope takes no vehicle out either: its planning period does not end earlier. */
  lemma {:induction false} WideningKeepsVehicles(b: Base, scope: Scope, narrow: seq<Target>, wide: seq<Target>, d: Duty)
    requires Protocol.NextScope(scope).Some? && narrow != [] && wide != []
    requires forall k :: 0 <= k < |narrow| ==> narrow[k] in wide
    requires Usable(b, scope, PlanningEnd(narrow), d)
    ensures Usable(b, Protocol.NextScope(scope).value, PlanningEnd(wide), d)
  {
    EndIsLatest(narrow, 0);
    var j :| 0 <= j < |narrow| && PlanningEnd(narrow) == narrow[j].windowEnd + narrow[j].deliveryService;
    assert narrow[j] in wide;
    var k :| 0 <= k < |wide| && wide[k] == narrow[j];
    EndIsLatest(wide, k);
  }

  /** The facts of a wider scope include those of the narrower one. */
  lemma {:induction false} WideningKeepsFacts(b: Base, scope: Scope, targets: set<Id>, wider: set<Id>, narrow: seq<Target>, wide: seq<Target>)
    requires Protocol.NextScope(scope).Some?
    requires forall o :: o in targets <==> InScope(b, scope, o)
    requires forall o :: o in wider <==> InScope(b, Protocol.NextScope(scope).value, o)
    requires FactsOf(b, Ascending(targets), narrow) && FactsOf(b, Ascending(wider), wide)
    ensures forall k :: 0 <= k < |narrow| ==> narrow[k] in wide
  {
    AscendingSorts(targets);
    AscendingSorts(wider);
    forall k | 0 <= k < |narrow| ensures narrow[k] in wide {
      var o := Ascending(targets)[k];
      assert o in Ascending(targets);
      WideningKeepsTargets(b, scope, o);
      assert o in Ascending(wider);
      var j :| 0 <= j < |Ascending(wider)| && Ascending(wider)[j] == o;
      assert wide[j] == narrow[k];
    }
  }

  // ----- the contract with the optimizer -----

  /** What the tables guarantee of an order. */
  predicate OrderRowOk(o: PlanningOrder) {
    0 < o.demand && 0 <= o.pickupService && 0 <= o.deliveryService && o.windowStart <= o.windowEnd
  }

  /** Whatever its status and the incident, the order of a target satisfies the optimizer's
      contract: exactly one of pickup, handover and required vehicle. */
  lemma {:induction false} TargetsMeetTheContract(b: Base, o: Id)
    requires Obstacle(b, o) == None && OrderRowOk(b.rows[o].order)
    ensures AsRecoveryOrder(b.now, FactOf(b, o)).Valid()
    ensures AsRecoveryOrder(b.now, FactOf(b, o)).DeliveryOnly() <==> OnBoard(b.rows[o]) && !HandsOver(b, o)
  {
  }
}
