/** Goods on the vehicles of a candidate, counted by its stops: a certified recovery whose initial loads
    are those of the kept stops never overloads a vehicle. */
module CandidateCapacity {
  import opened Ordering
  import opened Domain
  import opened Optimization
  import opened Checker
  import opened Feasibility
  import opened Finalizer
  import opened FinalizedPlan
  import opened Candidate
  import opened CandidateLaws
  import opened CandidateReview
  import opened RecoveryHistory
  import opened CandidateActions
  import opened ExecutedPlans
  import ExecutionInvariants

  /** What is on the vehicle after n stops of its row. */
  function RowCargo(stops: seq<Stop>, n: nat): int
    requires n <= |stops|
  {
    if n == 0 then 0
    else RowCargo(stops, n - 1) + if stops[n - 1].kind == Delivery then -stops[n - 1].demand else stops[n - 1].demand
  }

  /** No prefix of the stops takes on more than the capacity or drops what is not there. */
  ghost predicate Within(stops: seq<Stop>, capacity: int) {
    forall n :: 0 <= n <= |stops| ==> 0 <= RowCargo(stops, n) <= capacity
  }

  ghost predicate PlanWithin(routes: seq<Route>) {
    forall r :: 0 <= r < |routes| ==> Within(routes[r].stops, routes[r].capacity)
  }

  ghost predicate SameGoods(x: seq<Stop>, y: seq<Stop>, n: int) {
    n <= |x| && n <= |y| && forall k :: 0 <= k < n ==> y[k].kind == x[k].kind && y[k].demand == x[k].demand
  }

  lemma {:induction false} SameCargo(x: seq<Stop>, y: seq<Stop>, n: nat)
    requires SameGoods(x, y, n)
    ensures RowCargo(y, n) == RowCargo(x, n)
  {
    if 0 < n { SameCargo(x, y, n - 1); }
  }

  lemma {:induction false} SameGoodsWithin(x: seq<Stop>, y: seq<Stop>, capacity: int)
    requires Within(x, capacity) && SameGoods(x, y, |y|)
    ensures Within(y, capacity)
  {
    forall n | 0 <= n <= |y| ensures 0 <= RowCargo(y, n) <= capacity {
      SameCargo(x, y, n);
    }
  }

  // ----- stop actions and stored plans -----

  lemma {:induction false} KeptWithin(x: seq<Route>, y: seq<Route>)
    requires PlanKept(x, y) && PlanWithin(x)
    ensures PlanWithin(y)
  {
    forall r | 0 <= r < |y| ensures Within(y[r].stops, y[r].capacity) {
      assert RouteKept(x[r], y[r]);
      forall k | 0 <= k < |x[r].stops| ensures y[r].stops[k].kind == x[r].stops[k].kind && y[r].stops[k].demand == x[r].stops[k].demand {
        assert ExecutionInvariants.SameStop(x[r].stops[k], y[r].stops[k]);
      }
      SameGoodsWithin(x[r].stops, y[r].stops, x[r].capacity);
    }
  }

  lemma {:induction false} StoredCargo(orders: map<Id, PlanningOrder>, rows: seq<Stop>, stops: seq<SolverStop>, n: nat)
    requires n <= |rows| == |stops| && forall k :: 0 <= k < |rows| ==> MadeFrom(orders, rows[k], stops[k])
    ensures RowCargo(rows, n) == Cargo(orders, stops, n)
  {
    if 0 < n {
      StoredCargo(orders, rows, stops, n - 1);
      assert MadeFrom(orders, rows[n - 1], stops[n - 1]);
    }
  }

  lemma {:induction false} OriginRow(origin: Origin, i: nat)
    requires origin.Ok() && i < |origin.Rows()|
    ensures var c, routes := ContextOf(origin.facts, origin.roads, origin.planId), origin.result.routes;
            && FinalizedRow(c, origin.first, routes, i, origin.Rows()[i])
            && routes[i].vehicleId in c.pairs && origin.Rows()[i].capacity == c.pairs[routes[i].vehicleId].capacity
            && RouteFits(c.orders, c.pairs[routes[i].vehicleId], routes[i])
  {
    var c, routes := ContextOf(origin.facts, origin.roads, origin.planId), origin.result.routes;
    NewRouteIsFinalized(c, origin.first, routes, i);
    NewRouteAt(c, origin.first, routes, |routes|, i);
    CertifiedIsRouted(origin.facts, origin.locations, origin.distances, origin.durations, origin.result);
    assert Buildable(c, routes[i]);
  }

  /** A stored plan starts within its capacities. */
  lemma {:induction false} OriginIsWithin(origin: Origin)
    requires origin.Ok()
    ensures PlanWithin(origin.Rows())
  {
    var c, routes, rows := ContextOf(origin.facts, origin.roads, origin.planId), origin.result.routes, origin.Rows();
    forall i | 0 <= i < |rows| ensures Within(rows[i].stops, rows[i].capacity) {
      OriginRow(origin, i);
      forall n | 0 <= n <= |rows[i].stops| ensures 0 <= RowCargo(rows[i].stops, n) <= rows[i].capacity {
        StoredCargo(c.orders, rows[i].stops, routes[i].stops, n);
      }
    }
  }

  // ----- what a recovery must know -----

  function KeptOf(c: Recovery, base: Route): seq<Stop> {
    Preserved(base, TargetsById(c.targets).Keys, RebuiltIds(c.targets))
  }

  /** The initial load of a vehicle is what its kept stops leave on it, and its capacity is that of its route. */
  ghost predicate LoadIsReal(c: Recovery, base: Route) {
    base.vehicleId in VehicleFactsById(c.vehicles) ==>
      && VehicleFactsById(c.vehicles)[base.vehicleId].initialLoad == RowCargo(KeptOf(c, base), |KeptOf(c, base)|)
      && VehicleFactsById(c.vehicles)[base.vehicleId].capacity == base.capacity
  }

  /** A rebuilt route gives up everything unfinished. */
  ghost predicate GivesUpAll(c: Recovery, base: Route) {
    base.id in RebuiltIds(c.targets) ==>
      forall i :: 0 <= i < |base.stops| && base.stops[i].status != Completed ==> base.stops[i].orderId in TargetsById(c.targets)
  }

  ghost predicate Truthful(c: Recovery) {
    && (forall r :: 0 <= r < |c.routes| ==> LoadIsReal(c, c.routes[r]) && GivesUpAll(c, c.routes[r]))
    && forall v :: v in VehicleFactsById(c.vehicles) && v !in BaseVehicles(c.routes) ==> VehicleFactsById(c.vehicles)[v].initialLoad == 0
  }

  // ----- kept stops -----

  lemma {:induction false} FrontierMeans(stops: seq<Stop>)
    ensures forall i :: 0 <= i < ExecutionInvariants.Frontier(stops) ==> stops[i].status == Completed
    ensures ExecutionInvariants.Frontier(stops) < |stops| ==> stops[ExecutionInvariants.Frontier(stops)].status != Completed
  {
    if stops != [] && stops[0].status == Completed { FrontierMeans(stops[1..]); }
  }

  lemma {:induction false} PrefixSurvives(stops: seq<Stop>, lost: set<Id>, n: nat, m: nat)
    requires n <= |stops| && m <= |stops| && forall i :: 0 <= i < n ==> stops[i].status == Completed
    requires forall i :: n <= i < |stops| ==> stops[i].status != Completed && stops[i].orderId in lost
    ensures Surviving(stops[..m], lost) == if m < n then stops[..m] else stops[..n]
  {
    if 0 < m {
      PrefixSurvives(stops, lost, n, m - 1);
      assert stops[..m][..m - 1] == stops[..m - 1];
    }
  }

  /** What survives when everything unfinished is given up: the completed prefix. */
  lemma {:induction false} SurvivorsArePrefix(stops: seq<Stop>, lost: set<Id>)
    requires ExecutedInOrder(stops) && forall i :: 0 <= i < |stops| && stops[i].status != Completed ==> stops[i].orderId in lost
    ensures Surviving(stops, lost) == stops[..ExecutionInvariants.Frontier(stops)]
  {
    FrontierMeans(stops);
    PrefixSurvives(stops, lost, ExecutionInvariants.Frontier(stops), |stops|);
    assert stops[..|stops|] == stops;
  }

  /** The kept stops of a route within its capacity are within it. */
  lemma {:induction false} KeptStopsWithin(c: Recovery, base: Route)
    requires BaseOk(base) && Within(base.stops, base.capacity) && GivesUpAll(c, base)
    ensures Within(KeptOf(c, base), base.capacity)
  {
    if base.id in RebuiltIds(c.targets) {
      SurvivorsArePrefix(base.stops, TargetsById(c.targets).Keys);
      SameGoodsWithin(base.stops, KeptOf(c, base), base.capacity);
    }
  }

  // ----- new stops -----

  function NewCargo(targets: map<Id, Target>, added: seq<SolverStop>, m: nat): int
    requires m <= |added|
  {
    if m == 0 then 0
    else
      NewCargo(targets, added, m - 1)
      + if added[m - 1].orderId !in targets then 0
        else if added[m - 1].kind == Delivery then -targets[added[m - 1].orderId].demand else targets[added[m - 1].orderId].demand
  }

  lemma {:induction false} NewCargoIsLoad(now: Instant, targets: seq<Target>, initial: int, added: seq<SolverStop>, m: nat)
    requires m <= |added|
    ensures Load(OrdersById(AsRecoveryOrders(now, targets)), initial, added, m) == initial + NewCargo(TargetsById(targets), added, m)
  {
    TargetsAgree(now, targets);
    if 0 < m { NewCargoIsLoad(now, targets, initial, added, m - 1); }
  }

  /** The solver keeps the new stops within the capacity, starting from the initial load. */
  lemma {:induction false} CertifiedLoad(answer: Answer, s: nat)
    requires answer.Ok() && s < |answer.result.routes|
    ensures var facts, route := VehicleFactsById(answer.f.c.vehicles), answer.result.routes[s];
            && route.vehicleId in facts
            && forall m :: 0 <= m <= |route.stops| ==>
                 0 <= facts[route.vehicleId].initialLoad + NewCargo(TargetsById(answer.f.c.targets), route.stops, m) <= facts[route.vehicleId].capacity
  {
    var c, route := answer.f.c, answer.result.routes[s];
    var input := RecoveryInput(c, answer.locations, answer.distances, answer.durations);
    AcceptedIffFeasible(input, answer.result);
    FactsAgree(c.now, c.vehicles);
    var vehicle := VehiclesById(input.vehicles)[route.vehicleId];
    assert FeasibleRoute(input, OrdersById(input.orders), vehicle, route);
    forall m | 0 <= m <= |route.stops|
      ensures 0 <= VehicleFactsById(c.vehicles)[route.vehicleId].initialLoad + NewCargo(TargetsById(c.targets), route.stops, m)
                <= VehicleFactsById(c.vehicles)[route.vehicleId].capacity
    {
      assert 0 <= Load(OrdersById(input.orders), vehicle.initialLoad, route.stops, m) <= vehicle.capacity;
      NewCargoIsLoad(c.now, c.targets, vehicle.initialLoad, route.stops, m);
    }
  }

  // ----- a written row -----

  /** What a row is made of. */
  ghost predicate MadeOf(kept: seq<Stop>, targets: map<Id, Target>, added: seq<SolverStop>, rows: seq<Stop>) {
    && |rows| == |kept| + |added| && SameGoods(kept, rows, |kept|)
    && forall m :: 0 <= m < |added| ==> GoodsOf(targets, added[m], rows[|kept| + m])
  }

  ghost predicate GoodsOf(targets: map<Id, Target>, stop: SolverStop, row: Stop) {
    stop.orderId in targets && row.kind == stop.kind && row.demand == targets[stop.orderId].demand
  }

  lemma {:induction false} RowIsMadeOf(f: Frame, job: Job, row: Route)
    requires RowOf(f, job, row)
    ensures MadeOf(f.Kept(job), f.Targets(), f.New(job), row.stops)
  {
    var s := f.SpliceOf(job);
    forall k | 0 <= k < |s.preserved| ensures row.stops[k].kind == s.preserved[k].kind && row.stops[k].demand == s.preserved[k].demand {
      CopyAt(s.preserved, row.id, |s.preserved|, k);
    }
    forall m | 0 <= m < |s.added| ensures GoodsOf(s.targets, s.added[m], row.stops[|s.preserved| + m]) {
      FreshAt(s, row.id, |s.added|, m);
    }
  }

  /** The cargo of a row is that of the kept stops and then what the new stops add. */
  lemma {:induction false} RowCargoIs(kept: seq<Stop>, targets: map<Id, Target>, added: seq<SolverStop>, rows: seq<Stop>, m: nat)
    requires MadeOf(kept, targets, added, rows) && m <= |added|
    ensures RowCargo(rows, |kept| + m) == RowCargo(kept, |kept|) + NewCargo(targets, added, m)
  {
    if m == 0 {
      SameCargo(kept, rows, |kept|);
    } else {
      RowCargoIs(kept, targets, added, rows, m - 1);
      assert GoodsOf(targets, added[m - 1], rows[|kept| + (m - 1)]);
    }
  }

  /** The capacity and loads that make a row fit. */
  ghost predicate Fitting(f: Frame, job: Job, capacity: int) {
    && Within(f.Kept(job), capacity)
    && forall m :: 0 <= m <= |f.New(job)| ==>
         0 <= RowCargo(f.Kept(job), |f.Kept(job)|) + NewCargo(f.Targets(), f.New(job), m) <= capacity
  }

  lemma {:induction false} FittingRow(f: Frame, job: Job, row: Route)
    requires RowOf(f, job, row) && Fitting(f, job, row.capacity)
    ensures Within(row.stops, row.capacity)
  {
    var kept, added := f.Kept(job), f.New(job);
    RowIsMadeOf(f, job, row);
    forall n | 0 <= n <= |row.stops| ensures 0 <= RowCargo(row.stops, n) <= row.capacity {
      if n <= |kept| {
        SameCargo(kept, row.stops, n);
      } else {
        RowCargoIs(kept, f.Targets(), added, row.stops, n - |kept|);
      }
    }
  }

  function CapacityOf(c: Recovery, job: Job): int {
    var v := VehicleOfJob(job);
    if v in VehicleFactsById(c.vehicles) then VehicleFactsById(c.vehicles)[v].capacity
    else if job.base.Some? then job.base.value.capacity else 0
  }

  lemma {:induction false} RowCapacity(f: Frame, job: Job, routeId: Id, routeNo: int)
    requires f.Buildable(job)
    ensures f.Row(job, routeId, routeNo).capacity == CapacityOf(f.c, job)
  {
  }

  lemma {:induction false} BaseJobFits(answer: Answer, r: nat)
    requires answer.Ok() && Truthful(answer.f.c) && r < |answer.f.c.routes| && BaseOk(answer.f.c.routes[r])
    requires Within(answer.f.c.routes[r].stops, answer.f.c.routes[r].capacity)
    ensures var job := BaseJob(answer.f.c.routes[r], RoutesByVehicle(answer.result.routes)); Fitting(answer.f, job, CapacityOf(answer.f.c, job))
  {
    var c, base := answer.f.c, answer.f.c.routes[r];
    var job := BaseJob(base, RoutesByVehicle(answer.result.routes));
    assert LoadIsReal(c, base) && GivesUpAll(c, base);
    KeptStopsWithin(c, base);
    assert answer.f.Kept(job) == KeptOf(c, base);
    assert NewCargo(answer.f.Targets(), answer.f.New(job), 0) == 0;
    if job.solver.Some? {
      var s := RouteIndex(answer.result.routes, base.vehicleId);
      CertifiedLoad(answer, s);
    }
  }

  lemma {:induction false} RouteIndex(routes: seq<SolverRoute>, v: Id) returns (s: nat)
    requires v in RoutesByVehicle(routes)
    ensures s < |routes| && routes[s] == RoutesByVehicle(routes)[v] && routes[s].vehicleId == v
  {
    if routes[|routes| - 1].vehicleId == v {
      s := |routes| - 1;
    } else {
      s := RouteIndex(routes[..|routes| - 1], v);
    }
  }

  lemma {:induction false} LeftoverJobFits(answer: Answer, s: nat)
    requires answer.Ok() && Truthful(answer.f.c) && s < |answer.result.routes|
    requires answer.result.routes[s].vehicleId !in BaseVehicles(answer.f.c.routes)
    ensures var job := Job(None, Some(answer.result.routes[s])); Fitting(answer.f, job, CapacityOf(answer.f.c, job))
  {
    CertifiedLoad(answer, s);
    var job := Job(None, Some(answer.result.routes[s]));
    assert answer.f.Kept(job) == [];
    assert NewCargo(answer.f.Targets(), answer.f.New(job), 0) == 0;
  }

  // ----- row by row -----

  ghost predicate DraftWithin(d: Draft) {
    d.Written? ==> PlanWithin(d.rows)
  }

  lemma {:induction false} WriteNextWithin(f: Frame, d: Draft, job: Job)
    requires DraftWithin(d) && Fitting(f, job, CapacityOf(f.c, job))
    ensures DraftWithin(WriteNext(f, d, job))
  {
    if d.Written? && f.Buildable(job) {
      var row := f.Row(job, d.next, |d.rows| + 1);
      WrittenRow(f, job, d.next, |d.rows| + 1);
      RowCapacity(f, job, d.next, |d.rows| + 1);
      FittingRow(f, job, row);
    }
  }

  lemma {:induction false} BaseDraftWithin(answer: Answer, n: nat)
    requires answer.Ok() && Truthful(answer.f.c) && n <= |answer.f.c.routes| && PlanWithin(answer.f.c.routes)
    requires forall r :: 0 <= r < |answer.f.c.routes| ==> BaseOk(answer.f.c.routes[r])
    ensures DraftWithin(BaseDraft(answer.f, RoutesByVehicle(answer.result.routes), answer.first, n))
  {
    var byVehicle := RoutesByVehicle(answer.result.routes);
    forall r | 0 <= r < |answer.f.c.routes|
      ensures var job := BaseJob(answer.f.c.routes[r], byVehicle); Fitting(answer.f, job, CapacityOf(answer.f.c, job))
    {
      BaseJobFits(answer, r);
    }
    JobsWithin(answer.f, byVehicle, answer.first, n);
  }

  lemma {:induction false} JobsWithin(f: Frame, byVehicle: map<Id, SolverRoute>, first: Id, n: nat)
    requires n <= |f.c.routes|
    requires forall r :: 0 <= r < |f.c.routes| ==> var job := BaseJob(f.c.routes[r], byVehicle); Fitting(f, job, CapacityOf(f.c, job))
    ensures DraftWithin(BaseDraft(f, byVehicle, first, n))
  {
    if 0 < n {
      JobsWithin(f, byVehicle, first, n - 1);
      WriteNextWithin(f, BaseDraft(f, byVehicle, first, n - 1), BaseJob(f.c.routes[n - 1], byVehicle));
    }
  }

  lemma {:induction false} LeftoverDraftWithin(answer: Answer, base: Draft, n: nat)
    requires answer.Ok() && Truthful(answer.f.c) && n <= |answer.result.routes| && DraftWithin(base)
    ensures DraftWithin(LeftoverDraft(answer.f, answer.result.routes, base, n))
  {
    if 0 < n {
      LeftoverDraftWithin(answer, base, n - 1);
      if answer.result.routes[n - 1].vehicleId !in BaseVehicles(answer.f.c.routes) {
        LeftoverJobFits(answer, n - 1);
        WriteNextWithin(answer.f, LeftoverDraft(answer.f, answer.result.routes, base, n - 1), Job(None, Some(answer.result.routes[n - 1])));
      }
    }
  }

  /** The candidate of a truthful recovery of a plan within its capacities is within its own: on no row
      does any prefix of the stops overload the vehicle. */
  lemma {:induction false} CandidateIsWithin(answer: Answer)
    requires answer.Ok() && Truthful(answer.f.c) && SoundPlan(answer.f.c.routes) && PlanWithin(answer.f.c.routes)
    ensures PlanWithin(answer.Rows())
  {
    BaseDraftWithin(answer, |answer.f.c.routes|);
    LeftoverDraftWithin(answer, BaseDraft(answer.f, RoutesByVehicle(answer.result.routes), answer.first, |answer.f.c.routes|),
                        |answer.result.routes|);
  }

  // ----- every plan in the life of a day -----

  ghost predicate TruthfulStage(stage: Stage) {
    stage.Replanned? ==> Truthful(stage.answer.f.c)
  }

  ghost predicate TruthfulStages(stages: seq<Stage>) {
    forall m :: 0 <= m < |stages| ==> TruthfulStage(stages[m])
  }

  lemma {:induction false} LeadsToWithin(before: seq<Route>, stage: Stage, after: seq<Route>)
    requires SoundPlan(before) && PlanWithin(before) && Leads(before, stage, after) && TruthfulStage(stage)
    ensures PlanWithin(after)
  {
    match stage
    case Executed(threshold, w, ids, calls) =>
      RowsStay(threshold, w, calls, ids);
      KeptWithin(before, after);
    case Replanned(answer) => CandidateIsWithin(answer);
  }

  lemma {:induction false} StageLeadsToWithin(plans: seq<seq<Route>>, stages: seq<Stage>, n: nat)
    requires Stages(plans, stages) && n < |stages| && TruthfulStages(stages) && SoundPlan(plans[n]) && PlanWithin(plans[n])
    ensures PlanWithin(plans[n + 1])
  {
    LeadsToWithin(plans[n], stages[n], plans[n + 1]);
  }

  lemma {:induction false} StagesStayWithin(plans: seq<seq<Route>>, stages: seq<Stage>, n: nat)
    requires Stages(plans, stages) && SoundPlan(plans[0]) && PlanWithin(plans[0]) && n < |plans|
    requires TruthfulStages(stages)
    ensures PlanWithin(plans[n])
  {
    if 0 < n {
      StagesStayWithin(plans, stages, n - 1);
      StagesStaySound(plans, stages, n - 1);
      StageLeadsToWithin(plans, stages, n - 1);
    }
  }

  /** Starting from the rows of a certified result, no plan that any mixture of stop actions and truthful
      recoveries leads to ever overloads a vehicle, whatever prefix of a row has been executed. */
  lemma {:induction false} EveryPlanIsWithin(origin: Origin, plans: seq<seq<Route>>, stages: seq<Stage>, n: nat)
    requires Life(origin, plans, stages) && n < |plans|
    requires TruthfulStages(stages)
    ensures PlanWithin(plans[n])
  {
    OriginIsSound(origin);
    OriginIsWithin(origin);
    StagesStayWithin(plans, stages, n);
  }
}
