/** solve_alternatives: a bounded search for routings that use different vehicles.  The solver is
    arbitrary: it may answer anything to any call. */
module Alternatives {
  import opened Ordering
  import opened Domain
  import opened Optimization
  import opened Checker
  import opened Feasibility

  // ----- problems with fewer vehicles -----

  function Keep(vehicles: seq<SolverVehicle>, excluded: set<Id>): seq<SolverVehicle> {
    if vehicles == [] then []
    else Keep(vehicles[..|vehicles| - 1], excluded)
         + if vehicles[|vehicles| - 1].vehicleId in excluded then [] else [vehicles[|vehicles| - 1]]
  }

  function Without(source: SolverInput, excluded: set<Id>): SolverInput {
    source.(vehicles := Keep(source.vehicles, excluded))
  }

  lemma {:induction false} KeepIs(vehicles: seq<SolverVehicle>, excluded: set<Id>)
    ensures VehiclesById(Keep(vehicles, excluded)) == VehiclesById(vehicles) - excluded
  {
    if vehicles != [] {
      var front, last := vehicles[..|vehicles| - 1], vehicles[|vehicles| - 1];
      KeepIs(front, excluded);
      if last.vehicleId in excluded {
        assert Keep(vehicles, excluded) == Keep(front, excluded);
        assert VehiclesById(front)[last.vehicleId := last] - excluded == VehiclesById(front) - excluded;
      } else {
        assert Keep(vehicles, excluded)[..|Keep(vehicles, excluded)| - 1] == Keep(front, excluded);
        assert VehiclesById(front)[last.vehicleId := last] - excluded == (VehiclesById(front) - excluded)[last.vehicleId := last];
      }
    }
  }

  lemma {:induction false} KeptAre(vehicles: seq<SolverVehicle>, excluded: set<Id>)
    ensures forall v :: v in Keep(vehicles, excluded) <==> v in vehicles && v.vehicleId !in excluded
  {
    if vehicles != [] {
      assert vehicles == vehicles[..|vehicles| - 1] + [vehicles[|vehicles| - 1]];
      KeptAre(vehicles[..|vehicles| - 1], excluded);
    }
  }

  ghost predicate DistinctIds(vehicles: seq<SolverVehicle>) {
    forall i, j :: 0 <= i < j < |vehicles| ==> vehicles[i].vehicleId != vehicles[j].vehicleId
  }

  lemma {:induction false} KeepStaysDistinct(vehicles: seq<SolverVehicle>, excluded: set<Id>)
    requires DistinctIds(vehicles)
    ensures DistinctIds(Keep(vehicles, excluded))
  {
    if vehicles != [] {
      var front, last := vehicles[..|vehicles| - 1], vehicles[|vehicles| - 1];
      KeepStaysDistinct(front, excluded);
      KeptAre(front, excluded);
      assert last.vehicleId in excluded ==> Keep(vehicles, excluded) == Keep(front, excluded);
      forall i | 0 <= i < |Keep(front, excluded)| ensures Keep(front, excluded)[i].vehicleId != last.vehicleId {
        assert Keep(front, excluded)[i] in front;
      }
    }
  }

  lemma {:induction false} WithoutIsValid(source: SolverInput, excluded: set<Id>)
    requires source.Valid()
    ensures Without(source, excluded).Valid()
  {
    KeptAre(source.vehicles, excluded);
    KeepStaysDistinct(source.vehicles, excluded);
    var kept := Keep(source.vehicles, excluded);
    assert DistinctIds(kept);
    forall i | 0 <= i < |kept| ensures kept[i].Valid() && kept[i].start in source.locations {
      assert kept[i] in source.vehicles;
    }
  }

  /** `validate` finds nothing. */
  ghost predicate Passes(input: SolverInput, result: SolverResult) {
    && input.MatricesFit() && StartsInMatrix(input, VehiclesById(input.vehicles))
    && Accepted(input, result)
  }

  lemma {:induction false} SameRouteDistance(source: SolverInput, problem: SolverInput, vehicle: SolverVehicle, stops: seq<SolverStop>, n: nat)
    requires source.MatricesFit() && problem == source.(vehicles := problem.vehicles)
    requires vehicle.start in source.locations && Located(source, stops) && n <= |stops|
    ensures RouteDistance(problem, vehicle, stops, n) == RouteDistance(source, vehicle, stops, n)
  {
    if 0 < n { SameRouteDistance(source, problem, vehicle, stops, n - 1); }
  }

  lemma {:induction false} SameRoute(source: SolverInput, problem: SolverInput, orders: Orders, vehicle: SolverVehicle, route: SolverRoute)
    requires source.MatricesFit() && problem == source.(vehicles := problem.vehicles) && vehicle.start in source.locations
    ensures FeasibleRoute(problem, orders, vehicle, route) <==> FeasibleRoute(source, orders, vehicle, route)
  {
    forall k | 0 <= k < |route.stops| ensures Reachable(problem, vehicle, route.stops, k) == Reachable(source, vehicle, route.stops, k) {
    }
    if Located(source, route.stops) { SameRouteDistance(source, problem, vehicle, route.stops, |route.stops|); }
  }

  /** The vehicles a result drives. */
  function Drivers(routes: seq<SolverRoute>): set<Id> {
    set i | 0 <= i < |routes| :: routes[i].vehicleId
  }

  /** Which routes are feasible does not depend on the vehicles left out. */
  lemma {:induction false} RoutesWithout(source: SolverInput, problem: SolverInput, excluded: set<Id>, routes: seq<SolverRoute>)
    requires source.MatricesFit() && problem == source.(vehicles := problem.vehicles)
    requires StartsInMatrix(source, VehiclesById(source.vehicles))
    requires VehiclesById(problem.vehicles) == VehiclesById(source.vehicles) - excluded
    ensures RoutesFit(problem, routes) <==> RoutesFit(source, routes) && Drivers(routes) !! excluded
  {
    var orders, all, kept := OrdersById(source.orders), VehiclesById(source.vehicles), VehiclesById(problem.vehicles);
    forall i | 0 <= i < |routes| ensures RouteFits(problem, routes[i]) <==> RouteFits(source, routes[i]) && routes[i].vehicleId !in excluded {
      if routes[i].vehicleId in all { SameRoute(source, problem, orders, all[routes[i].vehicleId], routes[i]); }
    }
    if RoutesFit(source, routes) && Drivers(routes) !! excluded {
      forall i | 0 <= i < |routes| ensures RouteFits(problem, routes[i]) {
        assert routes[i].vehicleId in Drivers(routes);
      }
    }
  }

  ghost predicate RouteFits(input: SolverInput, route: SolverRoute)
    requires input.MatricesFit() && StartsInMatrix(input, VehiclesById(input.vehicles))
  {
    var vehicles := VehiclesById(input.vehicles);
    route.vehicleId in vehicles && FeasibleRoute(input, OrdersById(input.orders), vehicles[route.vehicleId], route)
  }

  ghost predicate RoutesFit(input: SolverInput, routes: seq<SolverRoute>)
    requires input.MatricesFit() && StartsInMatrix(input, VehiclesById(input.vehicles))
  {
    forall i :: 0 <= i < |routes| ==> RouteFits(input, routes[i])
  }

  /** What feasibility says beyond the single routes. */
  ghost predicate SettlesAll(orders: Orders, frozen: seq<FrozenTask>, result: SolverResult) {
    && (forall i, j :: 0 <= i < j < |result.routes| ==> result.routes[i].vehicleId != result.routes[j].vehicleId)
    && (forall o :: o in orders ==> SettledOnce(result, o))
    && (forall j :: 0 <= j < |result.unassigned| ==> result.unassigned[j].orderId in orders)
    && (forall f :: f in frozen ==> Kept(f, result.routes))
    && result.totalDistance == TotalDistance(result.routes, |result.routes|)
    && result.totalDuration == TotalDuration(result.routes, |result.routes|)
  }

  lemma {:induction false} FeasibleRoutingParts(input: SolverInput, result: SolverResult)
    requires input.MatricesFit() && StartsInMatrix(input, VehiclesById(input.vehicles))
    ensures FeasibleRouting(input, result) <==>
            RoutesFit(input, result.routes) && SettlesAll(OrdersById(input.orders), input.frozen, result)
  {
    if FeasibleRouting(input, result) {
      forall i | 0 <= i < |result.routes| ensures RouteFits(input, result.routes[i]) {
      }
    }
    if RoutesFit(input, result.routes) {
      forall i | 0 <= i < |result.routes| ensures RouteFits(input, result.routes[i]) {
      }
    }
  }

  lemma {:induction false} FeasibleWithoutIff(source: SolverInput, excluded: set<Id>, result: SolverResult)
    requires source.Valid()
    ensures Without(source, excluded).MatricesFit()
    ensures StartsInMatrix(source, VehiclesById(source.vehicles))
    ensures StartsInMatrix(Without(source, excluded), VehiclesById(Without(source, excluded).vehicles))
    ensures FeasibleRouting(Without(source, excluded), result) <==>
            FeasibleRouting(source, result) && Drivers(result.routes) !! excluded
  {
    var problem := Without(source, excluded);
    WithoutIsValid(source, excluded);
    KeepIs(source.vehicles, excluded);
    DictionariesAreKnown(source);
    DictionariesAreKnown(problem);
    RoutesWithout(source, problem, excluded, result.routes);
    FeasibleRoutingParts(source, result);
    FeasibleRoutingParts(problem, result);
  }

  /** Checking an alternative against the original input as well never finds more: a result passes
      with fewer vehicles exactly when it passes with all of them and leaves the excluded ones
      alone. */
  lemma {:induction false} PassesWithoutIff(source: SolverInput, excluded: set<Id>, result: SolverResult)
    requires source.Valid() && result.status == Feasible
    ensures Passes(Without(source, excluded), result) <==> Passes(source, result) && Drivers(result.routes) !! excluded
  {
    WithoutIsValid(source, excluded);
    FeasibleWithoutIff(source, excluded, result);
    AcceptedIffFeasible(source, result);
    AcceptedIffFeasible(Without(source, excluded), result);
  }

  // ----- signatures -----

  datatype Visit = Visit(orderId: Id, kind: StopKind, locationId: Id)
  datatype Tour = Tour(vehicleId: Id, visits: seq<Visit>)

  function Visits(stops: seq<SolverStop>): seq<Visit> {
    if stops == [] then []
    else Visits(stops[..|stops| - 1])
         + [Visit(stops[|stops| - 1].orderId, stops[|stops| - 1].kind, stops[|stops| - 1].locationId)]
  }

  /** Which vehicle visits what in which order; the order of the routes does not matter. */
  function Signature(routes: seq<SolverRoute>): multiset<Tour> {
    if routes == [] then multiset{}
    else Signature(routes[..|routes| - 1]) + multiset{Tour(routes[|routes| - 1].vehicleId, Visits(routes[|routes| - 1].stops))}
  }

  lemma {:induction false} SignatureShowsDrivers(routes: seq<SolverRoute>, v: Id)
    ensures v in Drivers(routes) <==> exists t :: t in Signature(routes) && t.vehicleId == v
  {
    if routes != [] {
      var front, last := routes[..|routes| - 1], routes[|routes| - 1];
      SignatureShowsDrivers(front, v);
      var tour := Tour(last.vehicleId, Visits(last.stops));
      assert tour in Signature(routes);
      assert forall t :: t in Signature(routes) <==> t in Signature(front) || t == tour;
      assert v in Drivers(routes) <==> v in Drivers(front) || v == last.vehicleId;
    }
  }

  lemma {:induction false} OtherDriversOtherSignature(routes: seq<SolverRoute>, others: seq<SolverRoute>, v: Id)
    requires v in Drivers(routes) && v !in Drivers(others)
    ensures Signature(routes) != Signature(others)
  {
    SignatureShowsDrivers(routes, v);
    SignatureShowsDrivers(others, v);
  }

  // ----- the search -----

  /** One call of the solver and its answer. */
  datatype Call = Call(excluded: set<Id>, answer: SolverResult)

  datatype Outcome = Found(results: seq<SolverResult>) | SolverError | ValidationError

  type Solver = (nat, SolverInput) -> SolverResult

  const MAX_CALLS := 3

  /** Vehicles that carry goods already or have frozen tasks. */
  function Required(source: SolverInput): set<Id> {
    (set o | o in source.orders && o.requiredVehicle.Some? :: o.requiredVehicle.value)
    + (set f | f in source.frozen :: f.vehicleId)
  }

  function VehicleIds(source: SolverInput): set<Id> {
    set v | v in source.vehicles :: v.vehicleId
  }

  predicate Complete(answer: SolverResult) {
    answer.status == Feasible && answer.unassigned == []
  }

  /** One more vehicle taken out of a complete answer that can do without it. */
  ghost predicate ChildOf(required: set<Id>, call: Call, excluded: set<Id>) {
    Complete(call.answer) && exists v :: v in Drivers(call.answer.routes) && v !in required && excluded == call.excluded + {v}
  }

  /** Call k asks for something new: the full problem, or one vehicle less than an earlier call. */
  ghost predicate CallOk(source: SolverInput, solver: Solver, trace: seq<Call>, k: int)
    requires 0 <= k < |trace|
  {
    && trace[k].answer == solver(k, Without(source, trace[k].excluded))
    && trace[k].excluded !! Required(source)
    && (if k == 0 then trace[k].excluded == {} else exists j :: 0 <= j < k && ChildOf(Required(source), trace[j], trace[k].excluded))
    && (forall j :: 0 <= j < k ==> trace[j].excluded != trace[k].excluded)
  }

  ghost predicate TraceOk(source: SolverInput, solver: Solver, trace: seq<Call>) {
    |trace| <= MAX_CALLS && forall k :: 0 <= k < |trace| ==> CallOk(source, solver, trace, k)
  }

  ghost predicate AnswerOk(source: SolverInput, call: Call) {
    call.answer.status != SolverFailed && (Complete(call.answer) ==> Passes(Without(source, call.excluded), call.answer))
  }

  ghost predicate AnswersOk(source: SolverInput, trace: seq<Call>) {
    forall k :: 0 <= k < |trace| ==> AnswerOk(source, trace[k])
  }

  /** The complete answers, the first of each signature, in the order of the calls. */
  function FirstOfEach(trace: seq<Call>): seq<SolverResult> {
    if trace == [] then [] else WithAnswer(FirstOfEach(trace[..|trace| - 1]), trace[|trace| - 1].answer)
  }

  function Signatures(results: seq<SolverResult>): set<multiset<Tour>> {
    set i | 0 <= i < |results| :: Signature(results[i].routes)
  }

  /** Every vehicle a complete answer drives and could do without was tried to be left out. */
  ghost predicate Tried(trace: seq<Call>, required: set<Id>, k: int, v: Id)
    requires 0 <= k < |trace|
  {
    Complete(trace[k].answer) && v in Drivers(trace[k].answer.routes) && v !in required ==>
      exists j :: 0 <= j < |trace| && trace[j].excluded == trace[k].excluded + {v}
  }

  ghost predicate Exhausted(trace: seq<Call>, required: set<Id>) {
    forall k, v :: 0 <= k < |trace| ==> Tried(trace, required, k, v)
  }

  /** The full problem, or one vehicle less than a problem that was asked. */
  ghost predicate Waiting(source: SolverInput, trace: seq<Call>, q: set<Id>) {
    && q !! Required(source)
    && (if trace == [] then q == {} else exists j :: 0 <= j < |trace| && ChildOf(Required(source), trace[j], q))
  }

  ghost predicate QueueOk(source: SolverInput, trace: seq<Call>, queue: seq<set<Id>>) {
    forall i :: 0 <= i < |queue| ==> Waiting(source, trace, queue[i])
  }

  /** Whatever could be left out next was asked or waits. */
  ghost predicate Covered(trace: seq<Call>, required: set<Id>, seen: set<set<Id>>, queue: seq<set<Id>>) {
    forall k, v :: 0 <= k < |trace| && Complete(trace[k].answer) && v in Drivers(trace[k].answer.routes) && v !in required ==>
      trace[k].excluded + {v} in seen || trace[k].excluded + {v} in queue
  }

  function ExcludedBy(trace: seq<Call>): set<set<Id>> {
    set k | 0 <= k < |trace| :: trace[k].excluded
  }

  /** The candidates to add, for the vehicles in this order. */
  function Children(vehicles: seq<Id>, excluded: set<Id>, seen: set<set<Id>>): seq<set<Id>> {
    if vehicles == [] then []
    else Children(vehicles[..|vehicles| - 1], excluded, seen)
         + if excluded + {vehicles[|vehicles| - 1]} in seen then [] else [excluded + {vehicles[|vehicles| - 1]}]
  }

  lemma {:induction false} ChildrenAre(vehicles: seq<Id>, excluded: set<Id>, seen: set<set<Id>>)
    ensures forall q :: q in Children(vehicles, excluded, seen) ==> exists v :: v in vehicles && q == excluded + {v}
    ensures forall v :: v in vehicles ==> excluded + {v} in seen || excluded + {v} in Children(vehicles, excluded, seen)
  {
    if vehicles != [] {
      var front, last := vehicles[..|vehicles| - 1], vehicles[|vehicles| - 1];
      assert vehicles == front + [last];
      ChildrenAre(front, excluded, seen);
    }
  }

  /** What an answer adds to the queue. */
  ghost function Added(call: Call, required: set<Id>, seen: set<set<Id>>): seq<set<Id>> {
    if Complete(call.answer) then Children(Ascending(Drivers(call.answer.routes) - required), call.excluded, seen) else []
  }

  /** All that was ever queued, in order. */
  ghost function Queued(required: set<Id>, trace: seq<Call>): seq<set<Id>> {
    if trace == [] then [{}]
    else Queued(required, trace[..|trace| - 1]) + Added(trace[|trace| - 1], required, ExcludedBy(trace))
  }

  /** The first in the queue that was not asked yet. */
  ghost predicate NextInLine(required: set<Id>, trace: seq<Call>, excluded: set<Id>) {
    exists i :: FirstUnasked(Queued(required, trace), ExcludedBy(trace), i) && Queued(required, trace)[i] == excluded
  }

  ghost predicate FirstUnasked(queued: seq<set<Id>>, seen: set<set<Id>>, i: int) {
    0 <= i < |queued| && queued[i] !in seen && AllAsked(queued, seen, i)
  }

  ghost predicate AllAsked(queued: seq<set<Id>>, seen: set<set<Id>>, n: int) {
    n <= |queued| && forall j :: 0 <= j < n ==> queued[j] in seen
  }

  /** The queue without what was popped. */
  ghost predicate Popped(required: set<Id>, trace: seq<Call>, queue: seq<set<Id>>, popped: nat) {
    AllAsked(Queued(required, trace), ExcludedBy(trace), popped) && queue == Queued(required, trace)[popped..]
  }

  ghost predicate InLine(required: set<Id>, trace: seq<Call>) {
    forall k :: 0 <= k < |trace| ==> NextInLine(required, trace[..k], trace[k].excluded)
  }

  lemma {:induction false} ChildrenSnoc(vehicles: seq<Id>, v: Id, excluded: set<Id>, seen: set<set<Id>>)
    ensures Children(vehicles + [v], excluded, seen)
            == Children(vehicles, excluded, seen) + if excluded + {v} in seen then [] else [excluded + {v}]
  {
    assert (vehicles + [v])[..|vehicles|] == vehicles;
  }

  /** The last loop of an iteration, over the vehicles in the order of their ids. */
  method Expand(queue: seq<set<Id>>, seen: set<set<Id>>, excluded: set<Id>, optional: set<Id>) returns (longer: seq<set<Id>>)
    ensures longer == queue + Children(Ascending(optional), excluded, seen)
  {
    longer := queue;
    var rest := optional;
    ghost var picked: seq<Id> := [];
    while rest != {}
      invariant Picked(picked, rest, optional)
      invariant longer == queue + Children(picked, excluded, seen)
      decreases |rest|
    {
      var v := LeastOf(rest);
      PickNext(picked, rest, optional, v);
      ChildrenSnoc(picked, v, excluded, seen);
      rest := rest - {v};
      if excluded + {v} !in seen {
        longer := longer + [excluded + {v}];
      }
      picked := picked + [v];
    }
    AscendingUnique(picked, optional);
  }

  // ----- the loop -----

  lemma {:induction false} VehiclesWithout(source: SolverInput, excluded: set<Id>)
    ensures VehicleIds(Without(source, excluded)) == VehicleIds(source) - excluded
  {
    KeptAre(source.vehicles, excluded);
    forall v ensures v in VehicleIds(Without(source, excluded)) <==> v in VehicleIds(source) - excluded {
    }
  }

  ghost predicate Searching(source: SolverInput, solver: Solver, trace: seq<Call>, seen: set<set<Id>>, queue: seq<set<Id>>) {
    && TraceOk(source, solver, trace) && AnswersOk(source, trace)
    && QueueOk(source, trace, queue) && seen == ExcludedBy(trace) && Covered(trace, Required(source), seen, queue)
    && (trace == [] ==> queue == [{}])
  }

  lemma {:induction false} CallsStayOk(source: SolverInput, solver: Solver, trace: seq<Call>, call: Call)
    requires forall k :: 0 <= k < |trace| ==> CallOk(source, solver, trace, k)
    ensures forall k :: 0 <= k < |trace| ==> CallOk(source, solver, trace + [call], k)
  {
    forall k | 0 <= k < |trace| ensures CallOk(source, solver, trace + [call], k) {
      assert CallOk(source, solver, trace, k);
      if 0 < k {
        var j :| 0 <= j < k && ChildOf(Required(source), trace[j], trace[k].excluded);
        assert (trace + [call])[j] == trace[j];
      }
      forall j | 0 <= j < k ensures (trace + [call])[j].excluded != (trace + [call])[k].excluded {
        assert (trace + [call])[j] == trace[j];
      }
    }
  }

  lemma {:induction false} NextCallOk(source: SolverInput, solver: Solver, trace: seq<Call>, seen: set<set<Id>>, excluded: set<Id>, answer: SolverResult)
    requires TraceOk(source, solver, trace) && seen == ExcludedBy(trace) && |trace| < MAX_CALLS
    requires Waiting(source, trace, excluded) && excluded !in seen
    requires answer == solver(|trace|, Without(source, excluded))
    ensures TraceOk(source, solver, trace + [Call(excluded, answer)])
  {
    var after, n := trace + [Call(excluded, answer)], |trace|;
    CallsStayOk(source, solver, trace, Call(excluded, answer));
    if trace != [] {
      var j :| 0 <= j < n && ChildOf(Required(source), trace[j], excluded);
      assert after[j] == trace[j];
    }
    forall j | 0 <= j < n ensures after[j].excluded != excluded {
      assert after[j] == trace[j];
    }
    assert CallOk(source, solver, after, n);
  }

  lemma {:induction false} SeenGrows(trace: seq<Call>, call: Call)
    ensures ExcludedBy(trace + [call]) == ExcludedBy(trace) + {call.excluded}
  {
    var after := trace + [call];
    forall e ensures e in ExcludedBy(after) <==> e in ExcludedBy(trace) || e == call.excluded {
      if k :| 0 <= k < |trace| && trace[k].excluded == e { assert after[k].excluded == e; }
      if e == call.excluded { assert after[|trace|].excluded == e; }
    }
  }

  lemma {:induction false} QueueStaysOk(source: SolverInput, trace: seq<Call>, queue: seq<set<Id>>, call: Call, children: seq<set<Id>>)
    requires QueueOk(source, trace, queue) && (trace == [] ==> queue == [])
    requires forall q :: q in children ==> q !! Required(source) && ChildOf(Required(source), call, q)
    ensures QueueOk(source, trace + [call], queue + children)
  {
    var after := trace + [call];
    forall i | 0 <= i < |queue + children| ensures Waiting(source, after, (queue + children)[i]) {
      if i < |queue| {
        assert Waiting(source, trace, queue[i]);
        var j :| 0 <= j < |trace| && ChildOf(Required(source), trace[j], queue[i]);
        assert after[j] == trace[j];
      } else {
        assert (queue + children)[i] == children[i - |queue|] && children[i - |queue|] in children;
        assert after[|trace|] == call;
      }
    }
  }

  lemma {:induction false} AddedAre(call: Call, required: set<Id>, seen: set<set<Id>>)
    requires call.excluded !! required
    ensures forall q :: q in Added(call, required, seen) ==> q !! required && ChildOf(required, call, q)
    ensures Complete(call.answer) ==>
              forall v :: v in Drivers(call.answer.routes) && v !in required ==>
                call.excluded + {v} in seen || call.excluded + {v} in Added(call, required, seen)
  {
    var optional := Drivers(call.answer.routes) - required;
    AscendingSorts(optional);
    ChildrenAre(Ascending(optional), call.excluded, seen);
  }

  lemma {:induction false} StaysCovered(trace: seq<Call>, required: set<Id>, seen: set<set<Id>>, queue: seq<set<Id>>, answer: SolverResult)
    requires queue != [] && queue[0] !! required && Covered(trace, required, seen, queue)
    ensures var call := Call(queue[0], answer);
            Covered(trace + [call], required, seen + {queue[0]}, queue[1..] + Added(call, required, seen + {queue[0]}))
  {
    var call := Call(queue[0], answer);
    var after, longer := trace + [call], queue[1..] + Added(call, required, seen + {queue[0]});
    AddedAre(call, required, seen + {queue[0]});
    forall k, v | 0 <= k < |after| && Complete(after[k].answer) && v in Drivers(after[k].answer.routes) && v !in required
      ensures after[k].excluded + {v} in seen + {queue[0]} || after[k].excluded + {v} in longer
    {
      if k < |trace| {
        assert after[k] == trace[k];
        assert queue == [queue[0]] + queue[1..];
      }
    }
  }

  lemma {:induction false} SearchGoesOn(source: SolverInput, solver: Solver, trace: seq<Call>, seen: set<set<Id>>, queue: seq<set<Id>>, answer: SolverResult)
    requires Searching(source, solver, trace, seen, queue) && queue != [] && queue[0] !in seen && |trace| < MAX_CALLS
    requires answer == solver(|trace|, Without(source, queue[0])) && AnswerOk(source, Call(queue[0], answer))
    ensures var call := Call(queue[0], answer);
            Searching(source, solver, trace + [call], seen + {queue[0]}, queue[1..] + Added(call, Required(source), seen + {queue[0]}))
  {
    var call := Call(queue[0], answer);
    NextCallOk(source, solver, trace, seen, queue[0], answer);
    SeenGrows(trace, call);
    AddedAre(call, Required(source), seen + {queue[0]});
    QueueStaysOk(source, trace, queue[1..], call, Added(call, Required(source), seen + {queue[0]}));
    StaysCovered(trace, Required(source), seen, queue, answer);
    forall k | 0 <= k < |trace + [call]| ensures AnswerOk(source, (trace + [call])[k]) {
      if k < |trace| { assert AnswerOk(source, trace[k]); }
    }
  }

  lemma {:induction false} SkipSeen(source: SolverInput, solver: Solver, max: nat, trace: seq<Call>, seen: set<set<Id>>, queue: seq<set<Id>>,
      results: seq<SolverResult>, popped: nat)
    requires Between(source, solver, max, trace, seen, queue, results, popped) && queue != [] && queue[0] in seen
    ensures Between(source, solver, max, trace, seen, queue[1..], results, popped + 1)
  {
    assert queue == [queue[0]] + queue[1..];
  }

  lemma {:induction false} EmptyQueueIsExhausted(source: SolverInput, solver: Solver, trace: seq<Call>, seen: set<set<Id>>)
    requires Searching(source, solver, trace, seen, [])
    ensures trace != [] && Exhausted(trace, Required(source))
  {
    forall k, v | 0 <= k < |trace| ensures Tried(trace, Required(source), k, v) {
    }
  }

  /** What a search returns, given the calls it made. */
  ghost predicate OutcomeOk(source: SolverInput, solver: Solver, max: nat, outcome: Outcome, trace: seq<Call>) {
    && TraceOk(source, solver, trace) && InLine(Required(source), trace)
    && (forall k :: 0 <= k < |trace| ==> |FirstOfEach(trace[..k])| < max)
    && match outcome
       case Found(results) =>
         && AnswersOk(source, trace) && results == FirstOfEach(trace)
         && (Required(source) <= VehicleIds(source) && |results| < max && |trace| < MAX_CALLS ==>
              trace != [] && Exhausted(trace, Required(source)))
         && (!(Required(source) <= VehicleIds(source)) ==> trace == [])
       case SolverError => trace != [] && trace[|trace| - 1].answer.status == SolverFailed
       case ValidationError =>
         trace != [] && Complete(trace[|trace| - 1].answer)
         && !Passes(Without(source, trace[|trace| - 1].excluded), trace[|trace| - 1].answer)
  }

  lemma {:induction false} PrefixesGrow(trace: seq<Call>, call: Call, max: nat)
    requires (forall k :: 0 <= k < |trace| ==> |FirstOfEach(trace[..k])| < max) && |FirstOfEach(trace)| < max
    ensures forall k :: 0 <= k < |trace + [call]| ==> |FirstOfEach((trace + [call])[..k])| < max
  {
    forall k | 0 <= k < |trace + [call]| ensures |FirstOfEach((trace + [call])[..k])| < max {
      assert (trace + [call])[..k] == trace[..k];
      assert trace[..|trace|] == trace;
    }
  }

  lemma {:induction false} LineGrows(required: set<Id>, trace: seq<Call>, queue: seq<set<Id>>, popped: nat, call: Call)
    requires InLine(required, trace) && Popped(required, trace, queue, popped)
    requires queue != [] && queue[0] == call.excluded && call.excluded !in ExcludedBy(trace)
    ensures InLine(required, trace + [call])
    ensures Popped(required, trace + [call], queue[1..] + Added(call, required, ExcludedBy(trace) + {call.excluded}), popped + 1)
  {
    var after := trace + [call];
    assert FirstUnasked(Queued(required, trace), ExcludedBy(trace), popped);
    forall k | 0 <= k < |after| ensures NextInLine(required, after[..k], after[k].excluded) {
      assert after[..k] == trace[..k];
      assert trace[..|trace|] == trace;
    }
    SeenGrows(trace, call);
    assert after[..|trace|] == trace;
    assert Queued(required, after) == Queued(required, trace) + Added(call, required, ExcludedBy(after));
  }

  lemma {:induction false} NoIssuesIffAccepted(input: SolverInput, result: SolverResult, issues: seq<Code>)
    requires input.MatricesFit() && StartsInMatrix(input, VehiclesById(input.vehicles))
    requires forall c :: c in issues <==> Reported(input, result, c)
    ensures issues == [] <==> Passes(input, result)
  {
    if issues != [] { assert Reported(input, result, issues[0]); }
  }

  /** Check an answer against the problem and against the original input. */
  method CheckAnswer(source: SolverInput, excluded: set<Id>, result: SolverResult) returns (ok: bool)
    requires source.Valid() && result.status == Feasible
    ensures ok <==> Passes(Without(source, excluded), result)
  {
    WithoutIsValid(source, excluded);
    PassesWithoutIff(source, excluded, result);
    var issues := Validate(Without(source, excluded), result);
    NoIssuesIffAccepted(Without(source, excluded), result, issues);
    ok := issues == [];
    if ok {
      var more := Validate(source, result);
      NoIssuesIffAccepted(source, result, more);
      ok := more == [];
    }
  }

  /** What holds between two iterations; without its required vehicles nothing is ever asked. */
  ghost predicate Between(source: SolverInput, solver: Solver, max: nat, trace: seq<Call>, seen: set<set<Id>>,
                          queue: seq<set<Id>>, results: seq<SolverResult>, popped: nat)
  {
    && results == FirstOfEach(trace) && |results| <= max
    && (forall k :: 0 <= k < |trace| ==> |FirstOfEach(trace[..k])| < max)
    && InLine(Required(source), trace)
    && if Required(source) <= VehicleIds(source) then Searching(source, solver, trace, seen, queue) && Popped(Required(source), trace, queue, popped)
       else trace == [] && |queue| <= 1 && QueueOk(source, trace, queue)
  }

  /** A call that ends the search with an error. */
  lemma {:induction false} SearchStops(source: SolverInput, solver: Solver, max: nat, trace: seq<Call>, seen: set<set<Id>>,
      queue: seq<set<Id>>, results: seq<SolverResult>, popped: nat, answer: SolverResult)
    requires Between(source, solver, max, trace, seen, queue, results, popped) && Required(source) <= VehicleIds(source)
    requires queue != [] && queue[0] !in seen && |trace| < MAX_CALLS && |results| < max
    requires answer == solver(|trace|, Without(source, queue[0]))
    ensures answer.status == SolverFailed ==>
              OutcomeOk(source, solver, max, SolverError, trace + [Call(queue[0], answer)])
    ensures Complete(answer) && !Passes(Without(source, queue[0]), answer) ==>
              OutcomeOk(source, solver, max, ValidationError, trace + [Call(queue[0], answer)])
  {
    assert Waiting(source, trace, queue[0]);
    NextCallOk(source, solver, trace, seen, queue[0], answer);
    PrefixesGrow(trace, Call(queue[0], answer), max);
    LineGrows(Required(source), trace, queue, popped, Call(queue[0], answer));
  }

  /** The results with one more answer. */
  function WithAnswer(results: seq<SolverResult>, answer: SolverResult): seq<SolverResult> {
    if Complete(answer) && Signature(answer.routes) !in Signatures(results) then results + [answer] else results
  }

  /** A call whose answer is of use or tells that there is no plan. */
  lemma {:induction false} SearchMovesOn(source: SolverInput, solver: Solver, max: nat, trace: seq<Call>, seen: set<set<Id>>,
      queue: seq<set<Id>>, results: seq<SolverResult>, popped: nat, answer: SolverResult)
    requires Between(source, solver, max, trace, seen, queue, results, popped) && Required(source) <= VehicleIds(source)
    requires queue != [] && queue[0] !in seen && |trace| < MAX_CALLS && |results| < max
    requires answer == solver(|trace|, Without(source, queue[0])) && AnswerOk(source, Call(queue[0], answer))
    ensures var call, nowSeen := Call(queue[0], answer), seen + {queue[0]};
            Between(source, solver, max, trace + [call], nowSeen, queue[1..] + Added(call, Required(source), nowSeen),
                    WithAnswer(results, answer), popped + 1)
  {
    PrefixesGrow(trace, Call(queue[0], answer), max);
    LineGrows(Required(source), trace, queue, popped, Call(queue[0], answer));
    SearchGoesOn(source, solver, trace, seen, queue, answer);
    assert (trace + [Call(queue[0], answer)])[..|trace|] == trace;
  }

  lemma {:induction false} SearchEnds(source: SolverInput, solver: Solver, max: nat, trace: seq<Call>, seen: set<set<Id>>,
      queue: seq<set<Id>>, results: seq<SolverResult>, popped: nat)
    requires Between(source, solver, max, trace, seen, queue, results, popped) && |trace| <= MAX_CALLS
    requires queue == [] || |trace| == MAX_CALLS || |results| == max
    ensures OutcomeOk(source, solver, max, Found(results), trace)
  {
    if Required(source) <= VehicleIds(source) && queue == [] { EmptyQueueIsExhausted(source, solver, trace, seen); }
  }

  /** What an answer makes of the search: an error, or nothing wrong so far. */
  method Judge(source: SolverInput, excluded: set<Id>, result: SolverResult) returns (failure: Option<Outcome>)
    requires source.Valid()
    ensures failure == None <==> AnswerOk(source, Call(excluded, result))
    ensures failure.Some? ==> failure.value == if result.status == SolverFailed then SolverError else ValidationError
    ensures failure == Some(ValidationError) ==> Complete(result) && !Passes(Without(source, excluded), result)
  {
    if result.status == SolverFailed {
      return Some(SolverError);
    }
    if Complete(result) {
      var ok := CheckAnswer(source, excluded, result);
      if !ok {
        return Some(ValidationError);
      }
    }
    failure := None;
  }

  /** A usable answer goes to the results unless its signature is known, and opens new problems. */
  method Absorb(results: seq<SolverResult>, signatures: set<multiset<Tour>>, queue: seq<set<Id>>, seen: set<set<Id>>,
      required: set<Id>, call: Call)
    returns (found: seq<SolverResult>, known: set<multiset<Tour>>, longer: seq<set<Id>>)
    requires signatures == Signatures(results)
    ensures found == WithAnswer(results, call.answer) && known == Signatures(found)
    ensures longer == queue + Added(call, required, seen)
  {
    found, known, longer := results, signatures, queue;
    SignaturesGrow(results, call.answer);
    if Complete(call.answer) {
      var signature := Signature(call.answer.routes);
      if signature !in signatures {
        known, found := signatures + {signature}, results + [call.answer];
      }
      longer := Expand(queue, seen, call.excluded, Drivers(call.answer.routes) - required);
    }
  }

  method SolveAlternatives(source: SolverInput, solver: Solver, max: nat) returns (outcome: Outcome, trace: seq<Call>)
    requires source.Valid() && 1 <= max <= 3
    ensures OutcomeOk(source, solver, max, outcome, trace)
  {
    var required := Required(source);
    var queue, seen := [{}], {};
    var results, signatures := [], {};
    var calls := 0;
    ghost var popped := 0;
    trace := [];
    SearchStarts(source, solver, max);
    while queue != [] && calls < MAX_CALLS && |results| < max
      invariant Between(source, solver, max, trace, seen, queue, results, popped)
      invariant calls == |trace| <= MAX_CALLS && signatures == Signatures(results)
      decreases MAX_CALLS - calls, |queue|
    {
      var excluded := queue[0];
      if excluded in seen {
        SkipSeen(source, solver, max, trace, seen, queue, results, popped);
        queue, popped := queue[1..], popped + 1;
        continue;
      }
      var problem := Without(source, excluded);
      ProblemKeepsRequired(source, solver, max, trace, seen, queue, results, popped);
      if !(required <= VehicleIds(problem)) {
        seen, queue := seen + {excluded}, queue[1..];
        continue;
      }
      var result := solver(calls, problem);
      var failure := Judge(source, excluded, result);
      if failure.Some? {
        SearchStops(source, solver, max, trace, seen, queue, results, popped, result);
        return failure.value, trace + [Call(excluded, result)];
      }
      SearchMovesOn(source, solver, max, trace, seen, queue, results, popped, result);
      seen := seen + {excluded};
      results, signatures, queue := Absorb(results, signatures, queue[1..], seen, required, Call(excluded, result));
      trace, calls, popped := trace + [Call(excluded, result)], calls + 1, popped + 1;
    }
    SearchEnds(source, solver, max, trace, seen, queue, results, popped);
    outcome := Found(results);
  }

  lemma {:induction false} SearchStarts(source: SolverInput, solver: Solver, max: nat)
    ensures Between(source, solver, max, [], {}, [{}], [], 0)
    ensures Signatures([]) == {}
  {
  }

  /** The problem at the head of the queue has the required vehicles if the original has them;
      otherwise it was the only one. */
  lemma {:induction false} ProblemKeepsRequired(source: SolverInput, solver: Solver, max: nat, trace: seq<Call>, seen: set<set<Id>>,
      queue: seq<set<Id>>, results: seq<SolverResult>, popped: nat)
    requires Between(source, solver, max, trace, seen, queue, results, popped) && queue != []
    ensures Required(source) <= VehicleIds(Without(source, queue[0])) <==> Required(source) <= VehicleIds(source)
    ensures !(Required(source) <= VehicleIds(source)) ==>
              Between(source, solver, max, trace, seen + {queue[0]}, queue[1..], results, popped)
  {
    FirstWaits(source, solver, max, trace, seen, queue, results, popped);
    VehiclesWithout(source, queue[0]);
  }

  lemma {:induction false} FirstWaits(source: SolverInput, solver: Solver, max: nat, trace: seq<Call>, seen: set<set<Id>>,
      queue: seq<set<Id>>, results: seq<SolverResult>, popped: nat)
    requires Between(source, solver, max, trace, seen, queue, results, popped) && queue != []
    ensures Waiting(source, trace, queue[0])
  {
  }

  lemma {:induction false} SignaturesGrow(results: seq<SolverResult>, result: SolverResult)
    ensures Signatures(results + [result]) == Signatures(results) + {Signature(result.routes)}
  {
    var longer := results + [result];
    forall x ensures x in Signatures(longer) <==> x in Signatures(results) || x == Signature(result.routes) {
      if i :| 0 <= i < |results| && x == Signature(results[i].routes) { assert longer[i] == results[i]; }
      if x == Signature(result.routes) { assert longer[|results|] == result; }
    }
  }

  // ----- what a search is worth -----

  ghost predicate Represented(results: seq<SolverResult>, answer: SolverResult) {
    exists i :: 0 <= i < |results| && Signature(results[i].routes) == Signature(answer.routes)
  }

  ghost predicate AnswerAt(trace: seq<Call>, k: int, answer: SolverResult) {
    0 <= k < |trace| && Complete(trace[k].answer) && trace[k].answer == answer
  }

  ghost predicate Answered(trace: seq<Call>, answer: SolverResult) {
    exists k :: AnswerAt(trace, k, answer)
  }

  ghost predicate PairwiseDifferent(results: seq<SolverResult>) {
    forall i, j :: 0 <= i < j < |results| ==> Signature(results[i].routes) != Signature(results[j].routes)
  }

  lemma {:induction false} ResultsAreAnswers(trace: seq<Call>)
    ensures |FirstOfEach(trace)| <= |trace|
    ensures forall i :: 0 <= i < |FirstOfEach(trace)| ==> Answered(trace, FirstOfEach(trace)[i])
  {
    if trace != [] {
      var front, sofar := trace[..|trace| - 1], FirstOfEach(trace[..|trace| - 1]);
      ResultsAreAnswers(front);
      forall i | 0 <= i < |FirstOfEach(trace)| ensures Answered(trace, FirstOfEach(trace)[i]) {
        if i < |sofar| {
          var k :| AnswerAt(front, k, sofar[i]);
          assert AnswerAt(trace, k, sofar[i]);
        } else {
          assert AnswerAt(trace, |trace| - 1, FirstOfEach(trace)[i]);
        }
      }
    }
  }

  lemma {:induction false} OneMoreDiffers(results: seq<SolverResult>, answer: SolverResult)
    requires PairwiseDifferent(results)
    ensures PairwiseDifferent(WithAnswer(results, answer))
  {
    if Signature(answer.routes) !in Signatures(results) {
      forall i | 0 <= i < |results| ensures Signature(results[i].routes) != Signature(answer.routes) {
        assert Signature(results[i].routes) in Signatures(results);
      }
    }
  }

  lemma {:induction false} ResultsDiffer(trace: seq<Call>)
    ensures PairwiseDifferent(FirstOfEach(trace))
  {
    if trace != [] {
      ResultsDiffer(trace[..|trace| - 1]);
      OneMoreDiffers(FirstOfEach(trace[..|trace| - 1]), trace[|trace| - 1].answer);
    }
  }

  /** Every complete answer is among the results, up to its signature. */
  lemma {:induction false} NoAnswerIsLost(trace: seq<Call>, k: nat)
    requires k < |trace| && Complete(trace[k].answer)
    ensures Represented(FirstOfEach(trace), trace[k].answer)
  {
    var sofar, all := FirstOfEach(trace[..|trace| - 1]), FirstOfEach(trace);
    if k == |trace| - 1 {
      if all != sofar { assert all[|sofar|] == trace[k].answer; }
    } else {
      NoAnswerIsLost(trace[..|trace| - 1], k);
      var i :| 0 <= i < |sofar| && Signature(sofar[i].routes) == Signature(trace[k].answer.routes);
      assert all[i] == sofar[i];
    }
  }

  lemma {:induction false} AnswerIsSound(source: SolverInput, trace: seq<Call>, answer: SolverResult)
    requires source.Valid() && AnswersOk(source, trace) && Answered(trace, answer)
    ensures StartsInMatrix(source, VehiclesById(source.vehicles))
    ensures Complete(answer) && FeasibleRouting(source, answer)
  {
    var k :| AnswerAt(trace, k, answer);
    assert AnswerOk(source, trace[k]);
    PassesWithoutIff(source, trace[k].excluded, answer);
    AcceptedIffFeasible(source, answer);
  }

  /** Whatever the solver answers, the alternatives are feasible for the original problem, leave no
      order out, are pairwise different, and are at most as many as asked for. */
  lemma {:induction false} AlternativesAreSound(source: SolverInput, solver: Solver, max: nat, results: seq<SolverResult>, trace: seq<Call>)
    requires source.Valid() && 1 <= max && OutcomeOk(source, solver, max, Found(results), trace)
    ensures |results| <= max && |results| <= MAX_CALLS && PairwiseDifferent(results)
    ensures StartsInMatrix(source, VehiclesById(source.vehicles))
    ensures forall i :: 0 <= i < |results| ==> Complete(results[i]) && FeasibleRouting(source, results[i])
  {
    ResultsAreAnswers(trace);
    ResultsDiffer(trace);
    DictionariesAreKnown(source);
    forall i | 0 <= i < |results| ensures Complete(results[i]) && FeasibleRouting(source, results[i]) {
      AnswerIsSound(source, trace, results[i]);
    }
    AtMostOneMore(trace);
  }

  lemma {:induction false} AtMostOneMore(trace: seq<Call>)
    ensures trace != [] ==> |FirstOfEach(trace)| <= |FirstOfEach(trace[..|trace| - 1])| + 1
  {
  }

  /** A call after the first leaves out a vehicle that an earlier complete answer drove, never a
      required one; its answer, if complete, is a different plan. */
  lemma {:induction false} LeavingOutChangesThePlan(source: SolverInput, solver: Solver, trace: seq<Call>, k: int) returns (j: int, v: Id)
    requires source.Valid() && TraceOk(source, solver, trace) && AnswersOk(source, trace)
    requires 0 < k < |trace| && Complete(trace[k].answer)
    ensures 0 <= j < k && Complete(trace[j].answer) && trace[k].excluded == trace[j].excluded + {v} && v !in Required(source)
    ensures v in Drivers(trace[j].answer.routes) && v !in Drivers(trace[k].answer.routes)
    ensures Signature(trace[j].answer.routes) != Signature(trace[k].answer.routes)
  {
    assert CallOk(source, solver, trace, k);
    j :| 0 <= j < k && ChildOf(Required(source), trace[j], trace[k].excluded);
    v :| v in Drivers(trace[j].answer.routes) && v !in Required(source) && trace[k].excluded == trace[j].excluded + {v};
    assert AnswerOk(source, trace[k]);
    PassesWithoutIff(source, trace[k].excluded, trace[k].answer);
    OtherDriversOtherSignature(trace[j].answer.routes, trace[k].answer.routes, v);
  }
}
