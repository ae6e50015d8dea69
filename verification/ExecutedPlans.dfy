/** Every plan that recovery can start from is sound: a plan stored from an accepted result is, stop
    actions keep it so, and so does every recovery that repeats nothing. */
module ExecutedPlans {
  import opened Ordering
  import opened Domain
  import opened Optimization
  import opened Checker
  import opened Feasibility
  import opened Finalizer
  import opened FinalizedPlan
  import CapacitySafety
  import opened Execution
  import opened ExecutionInvariants
  import Candidate
  import opened CandidateLaws
  import opened CandidateReview
  import opened Comparison
  import opened RecoveryHistory
  import opened CandidateActions

  // ----- the routes of a plan in the tables -----

  ghost predicate RowsIn(w: World, ids: seq<Id>) {
    forall i :: 0 <= i < |ids| ==> ids[i] in w.routes
  }

  function PlanRoutes(w: World, ids: seq<Id>): (routes: seq<Route>)
    requires RowsIn(w, ids)
    ensures |routes| == |ids| && forall i :: 0 <= i < |ids| ==> routes[i] == w.routes[ids[i]]
  {
    if ids == [] then [] else PlanRoutes(w, ids[..|ids| - 1]) + [w.routes[ids[|ids| - 1]]]
  }

  // ----- stop actions keep the planned part -----

  /** Same row, same vehicle and capacity, and the same planned stops. */
  ghost predicate RouteKept(x: Route, y: Route) {
    && y.id == x.id && y.vehicleId == x.vehicleId && y.capacity == x.capacity && |y.stops| == |x.stops|
    && forall k :: 0 <= k < |x.stops| ==> SameStop(x.stops[k], y.stops[k])
  }

  lemma {:induction false} KeptTwice(x: Route, y: Route, z: Route)
    requires RouteKept(x, y) && RouteKept(y, z)
    ensures RouteKept(x, z)
  {
    forall k | 0 <= k < |x.stops| ensures SameStop(x.stops[k], z.stops[k]) {
      assert SameStop(x.stops[k], y.stops[k]) && SameStop(y.stops[k], z.stops[k]);
    }
  }

  lemma {:induction false} KeptIsWellFormed(x: Route, y: Route)
    requires RouteKept(x, y) && WellFormed(x.stops)
    ensures WellFormed(y.stops)
  {
    forall i | 0 <= i < |y.stops|
      ensures y.stops[i].sequenceNo == i + 1 && Linked(y.stops, i) && (y.stops[i].kind == Handover <==> y.stops[i].incident.Some?)
    {
      assert SameStop(x.stops[i], y.stops[i]) && Linked(x.stops, i);
      if x.stops[i].kind == Delivery {
        var p :| 0 <= p < i && x.stops[i].precedence == Some(x.stops[p].id) && x.stops[p].orderId == x.stops[i].orderId
          && x.stops[p].kind != Delivery;
        assert SameStop(x.stops[p], y.stops[p]);
      }
    }
  }

  lemma {:induction false} MovedIsKept(route: Route, k: nat, target: StopStatus, t: Instant)
    requires k < |route.stops|
    ensures RouteKept(route, MovedRoute(route, k, target, t))
    ensures MovedRoute(route, k, target, t).stops == MovedStops(route, k, target, t)
  {
  }

  /** A stop is only moved behind completed ones, so stops are completed in order. */
  lemma {:induction false} MovedInOrder(stops: seq<Stop>, k: nat, a: Execution.Action, t: Instant)
    requires k < |stops| && ExecutedInOrder(stops) && SequenceOk(stops, k) && stops[k].status == Expected(a)
    requires forall i :: 0 <= i < |stops| ==> stops[i].sequenceNo == i + 1
    ensures ExecutedInOrder(stops[k := MovedStop(stops[k], Execution.Target(a), t)])
  {
    var moved := stops[k := MovedStop(stops[k], Execution.Target(a), t)];
    forall i, j | 0 <= i < j < |moved|
      ensures moved[i].id != moved[j].id && (moved[j].status == Completed ==> moved[i].status == Completed)
    {
      assert stops[i].id != stops[j].id;
      assert stops[j].status == Completed ==> stops[i].status == Completed;
      if j == k { assert stops[i].sequenceNo < stops[k].sequenceNo; }
    }
  }

  lemma {:induction false} StepKeepsRow(threshold: nat, w: World, stopId: Id, a: Execution.Action, t: Instant, r: Id)
    requires r in w.routes && BaseOk(w.routes[r])
    ensures var after := Execution.Step(threshold, w, stopId, a, t);
            r in after.routes && RouteKept(w.routes[r], after.routes[r]) && BaseOk(after.routes[r])
  {
    var after := Execution.Step(threshold, w, stopId, a, t);
    if Takes(w, stopId, a, t) {
      var p := w.index[stopId];
      EffectOnRoutes(threshold, w, p, Execution.Target(a), t);
      if p.routeId == r {
        MovedIsKept(w.routes[r], p.at, Execution.Target(a), t);
        MovedInOrder(w.routes[r].stops, p.at, a, t);
        KeptIsWellFormed(w.routes[r], after.routes[r]);
      }
    }
  }

  lemma {:induction false} RunKeepsRow(threshold: nat, w: World, calls: seq<Call>, r: Id)
    requires r in w.routes && BaseOk(w.routes[r])
    ensures var after := Run(threshold, w, calls);
            r in after.routes && RouteKept(w.routes[r], after.routes[r]) && BaseOk(after.routes[r])
    decreases |calls|
  {
    if calls != [] {
      var n := |calls| - 1;
      var before := Run(threshold, w, calls[..n]);
      RunKeepsRow(threshold, w, calls[..n], r);
      StepKeepsRow(threshold, before, calls[n].stopId, calls[n].action, calls[n].at, r);
      KeptTwice(w.routes[r], before.routes[r], Run(threshold, w, calls).routes[r]);
    }
  }

  // ----- and with it the actions of the plan -----

  ghost predicate PlanKept(x: seq<Route>, y: seq<Route>) {
    |x| == |y| && forall i :: 0 <= i < |x| ==> RouteKept(x[i], y[i])
  }

  ghost predicate ActionsKept(x: seq<Comparison.Action>, y: seq<Comparison.Action>) {
    |x| == |y| && forall q :: 0 <= q < |x| ==> SameStop(x[q].stop, y[q].stop)
  }

  lemma {:induction false} KeptActions(x: seq<Route>, y: seq<Route>)
    requires PlanKept(x, y)
    ensures ActionsKept(Actions(x), Actions(y))
  {
    if x != [] {
      var n := |x| - 1;
      KeptActions(x[..n], y[..n]);
      OnVehicleLength(x[n].stops, x[n].vehicleId);
      OnVehicleLength(y[n].stops, y[n].vehicleId);
      assert RouteKept(x[n], y[n]);
      forall q | 0 <= q < |Actions(x)| ensures SameStop(Actions(x)[q].stop, Actions(y)[q].stop) {
        if q < |Actions(x[..n])| {
          assert SameStop(Actions(x[..n])[q].stop, Actions(y[..n])[q].stop);
        } else {
          OnVehicleAt(x[n].stops, x[n].vehicleId, q - |Actions(x[..n])|);
          OnVehicleAt(y[n].stops, y[n].vehicleId, q - |Actions(x[..n])|);
        }
      }
    }
  }

  lemma {:induction false} KeptDistinct(x: seq<Comparison.Action>, y: seq<Comparison.Action>)
    requires ActionsKept(x, y)
    ensures DistinctIds(x) ==> DistinctIds(y)
    ensures DistinctKeys(x) ==> DistinctKeys(y)
  {
    forall p, q | 0 <= p < q < |y|
      ensures DistinctIds(x) ==> y[p].stop.id != y[q].stop.id
      ensures DistinctKeys(x) ==> KeyOf(y[p].stop) != KeyOf(y[q].stop)
    {
      assert SameStop(x[p].stop, y[p].stop) && SameStop(x[q].stop, y[q].stop);
    }
  }

  lemma {:induction false} RowsStay(threshold: nat, w: World, calls: seq<Call>, ids: seq<Id>)
    requires RowsIn(w, ids) && forall i :: 0 <= i < |ids| ==> BaseOk(PlanRoutes(w, ids)[i])
    ensures RowsIn(Run(threshold, w, calls), ids)
    ensures PlanKept(PlanRoutes(w, ids), PlanRoutes(Run(threshold, w, calls), ids))
    ensures forall i :: 0 <= i < |ids| ==> BaseOk(PlanRoutes(Run(threshold, w, calls), ids)[i])
  {
    var before, after := PlanRoutes(w, ids), Run(threshold, w, calls);
    forall i | 0 <= i < |ids|
      ensures ids[i] in after.routes && RouteKept(before[i], after.routes[ids[i]]) && BaseOk(after.routes[ids[i]])
    {
      assert BaseOk(before[i]);
      RunKeepsRow(threshold, w, calls, ids[i]);
    }
  }

  /** Whatever is called, in whatever order and at whatever times, a sound plan stays sound. */
  lemma {:induction false} RunKeepsSound(threshold: nat, w: World, calls: seq<Call>, ids: seq<Id>)
    requires RowsIn(w, ids) && SoundPlan(PlanRoutes(w, ids))
    ensures RowsIn(Run(threshold, w, calls), ids)
    ensures SoundPlan(PlanRoutes(Run(threshold, w, calls), ids))
  {
    RowsStay(threshold, w, calls, ids);
    var before, after := PlanRoutes(w, ids), PlanRoutes(Run(threshold, w, calls), ids);
    KeptActions(before, after);
    KeptDistinct(Actions(before), Actions(after));
    forall i, j | 0 <= i < j < |after| ensures after[i].vehicleId != after[j].vehicleId {
      assert RouteKept(before[i], after[i]) && RouteKept(before[j], after[j]);
      assert before[i].vehicleId != before[j].vehicleId;
    }
  }

  // ----- a stored plan is sound -----

  /** Row i of a stored plan by its solver route. */
  ghost predicate FinalizedRow(c: Context, first: Id, routes: seq<SolverRoute>, i: int, row: Route) {
    && 0 <= i < |routes| && row.id == RouteIdAt(first, routes, i) && |row.stops| == |routes[i].stops| && OwnsIds(row)
    && (forall k :: 0 <= k < |row.stops| ==> MadeFrom(c.orders, row.stops[k], routes[i].stops[k]) && row.stops[k].incident == None)
  }

  lemma {:induction false} RowIncident(c: Context, routeId: Id, routeNo: int, route: SolverRoute, k: nat)
    requires Buildable(c, route) && k < |route.stops|
    ensures NewRoute(c, routeId, routeNo, route).stops[k].incident == None
  {
    assert forall k {:trigger route.stops[k]} :: 0 <= k < |route.stops| ==> StopBuildable(c.orders, route.stops, k);
    NewStopAt(c.orders, c.now, routeId, route.stops, |route.stops|, k);
  }

  lemma {:induction false} NewRouteIsFinalized(c: Context, first: Id, routes: seq<SolverRoute>, i: nat)
    requires i < |routes| && RoutesBuildable(c, routes, |routes|)
    ensures FinalizedRow(c, first, routes, i, NewRoutes(c, first, routes, |routes|)[i])
    ensures NewRoutes(c, first, routes, |routes|)[i].vehicleId == c.pairs[routes[i].vehicleId].vehicleId
  {
    NewRouteAt(c, first, routes, |routes|, i);
    var routeId := RouteIdAt(first, routes, i);
    assert Buildable(c, routes[i]);
    var row := NewRoute(c, routeId, i + 1, routes[i]);
    assert |row.stops| == |routes[i].stops|;
    forall k | 0 <= k < |row.stops|
      ensures MadeFrom(c.orders, row.stops[k], routes[i].stops[k]) && row.stops[k].incident == None && row.stops[k].id == row.id + 1 + k
    {
      RowMadeFrom(c, routeId, i + 1, routes[i], k);
      RowIncident(c, routeId, i + 1, routes[i], k);
    }
  }

  lemma {:induction false} NewRouteIsOk(c: Context, first: Id, routes: seq<SolverRoute>, i: nat)
    requires i < |routes| && RoutesBuildable(c, routes, |routes|) && RouteFits(c.orders, c.pairs[routes[i].vehicleId], routes[i])
    ensures BaseOk(NewRoutes(c, first, routes, |routes|)[i])
  {
    NewRouteIsFinalized(c, first, routes, i);
    NewRouteAt(c, first, routes, |routes|, i);
    var row := NewRoutes(c, first, routes, |routes|)[i];
    assert Buildable(c, routes[i]);
    forall k | 0 <= k < |row.stops|
      ensures row.stops[k].sequenceNo == k + 1 && Linked(row.stops, k) && row.stops[k].kind != Handover
    {
      assert MadeFrom(c.orders, row.stops[k], routes[i].stops[k]) && StopFits(c.orders, routes[i].stops, k);
      PrecedenceIsTheEarlierPickup(c, RouteIdAt(first, routes, i), i + 1, routes[i], c.pairs[routes[i].vehicleId], k);
      StopKind(c.orders, routes[i].stops, k);
    }
  }

  lemma {:induction false} StopKind(orders: map<Id, PlanningOrder>, stops: seq<SolverStop>, k: nat)
    requires k < |stops| && StopFits(orders, stops, k)
    ensures stops[k].kind != Handover
  {
    var p, d :| PickedThenDropped(stops, stops[k].orderId, p, d);
  }

  /** The ids of a later row come after those of an earlier one. */
  lemma {:induction false} RouteIdsGrow(first: Id, routes: seq<SolverRoute>, i: nat, j: nat)
    requires i < j <= |routes|
    ensures RouteIdAt(first, routes, i) + |routes[i].stops| < RouteIdAt(first, routes, j)
  {
    if i < j - 1 { RouteIdsGrow(first, routes, i, j - 1); }
  }

  lemma {:induction false} NewRoutesAreSpaced(c: Context, first: Id, routes: seq<SolverRoute>)
    requires RoutesBuildable(c, routes, |routes|)
    ensures Spaced(NewRoutes(c, first, routes, |routes|), RouteIdAt(first, routes, |routes|))
  {
    var rows := NewRoutes(c, first, routes, |routes|);
    forall j | 0 <= j < |rows| ensures OwnsIds(rows[j]) && rows[j].id + |rows[j].stops| < RouteIdAt(first, routes, |routes|) {
      NewRouteIsFinalized(c, first, routes, j);
      RouteIdsGrow(first, routes, j, |routes|);
    }
    forall i, j | 0 <= i < j < |rows| ensures rows[i].id + |rows[i].stops| < rows[j].id {
      NewRouteIsFinalized(c, first, routes, i);
      NewRouteIsFinalized(c, first, routes, j);
      RouteIdsGrow(first, routes, i, j);
    }
  }

  /** An order is on one route, with one stop of each kind. */
  lemma {:induction false} SolverStopsAreOnce(orders: map<Id, PlanningOrder>, result: SolverResult, r: int, b: int, q: int, d: int)
    requires 0 <= r < |result.routes| && 0 <= b < |result.routes[r].stops| && 0 <= q < |result.routes| && 0 <= d < |result.routes[q].stops|
    requires StopFits(orders, result.routes[r].stops, b) && SettledOnce(result, result.routes[r].stops[b].orderId)
    requires result.routes[r].stops[b].orderId == result.routes[q].stops[d].orderId
    requires result.routes[r].stops[b].kind == result.routes[q].stops[d].kind
    ensures r == q && b == d
  {
    var o := result.routes[r].stops[b].orderId;
    assert OnRoute(result.routes, r, o) && OnRoute(result.routes, q, o);
    var p, e :| PickedThenDropped(result.routes[r].stops, o, p, e);
  }

  lemma {:induction false} NewRoutesActOnce(c: Context, first: Id, result: SolverResult)
    requires RoutesBuildable(c, result.routes, |result.routes|) && Routed(c.orders, c.pairs, result)
    ensures BaseOnce(NewRoutes(c, first, result.routes, |result.routes|))
  {
    var routes := result.routes;
    var rows := NewRoutes(c, first, routes, |routes|);
    forall r, b, q, d | SameAction(rows, r, b, q, d) ensures r == q && b == d {
      NewRouteIsFinalized(c, first, routes, r);
      NewRouteIsFinalized(c, first, routes, q);
      assert MadeFrom(c.orders, rows[r].stops[b], routes[r].stops[b]) && MadeFrom(c.orders, rows[q].stops[d], routes[q].stops[d]);
      assert RouteFits(c.orders, c.pairs[routes[r].vehicleId], routes[r]);
      assert StopFits(c.orders, routes[r].stops, b);
      SolverStopsAreOnce(c.orders, result, r, b, q, d);
    }
  }

  lemma {:induction false} OnceIsDistinct(routes: seq<Route>)
    requires BaseOnce(routes)
    ensures DistinctKeys(Actions(routes))
  {
    var all := Actions(routes);
    forall p, q | 0 <= p < q < |all| ensures KeyOf(all[p].stop) != KeyOf(all[q].stop) {
      var r, b := ActionFrom(routes, p);
      var s, d := ActionFrom(routes, q);
      assert !SameAction(routes, r, b, s, d);
    }
  }

  /** The rows stored for a certified result are a sound plan. */
  lemma {:induction false} FinalizedPlanIsSound(facts: Facts, locations: seq<Id>, distances: Matrix, durations: Matrix, result: SolverResult,
      roads: Roads, planId: Id, first: Id)
    requires Certified(BuildSolverInput(facts, locations, distances, durations), result)
    requires RoutesBuildable(ContextOf(facts, roads, planId), result.routes, |result.routes|)
    ensures SoundPlan(NewRoutes(ContextOf(facts, roads, planId), first, result.routes, |result.routes|))
  {
    var c, routes := ContextOf(facts, roads, planId), result.routes;
    var rows := NewRoutes(c, first, routes, |routes|);
    CertifiedIsRouted(facts, locations, distances, durations, result);
    VehiclesAgree(facts.now, PlanningEnd(facts, |facts.orders|), facts.pairs);
    NewRoutesAreSpaced(c, first, routes);
    RowsHaveDistinctIds(rows, RouteIdAt(first, routes, |routes|));
    NewRoutesActOnce(c, first, result);
    OnceIsDistinct(rows);
    forall i | 0 <= i < |rows| ensures BaseOk(rows[i]) && rows[i].vehicleId == routes[i].vehicleId {
      NewRouteIsOk(c, first, routes, i);
      NewRouteIsFinalized(c, first, routes, i);
    }
  }

  // ----- every plan in the life of a day -----

  /** A day's plan as it is first stored, and the solver result it comes from. */
  datatype Origin = Origin(facts: Facts, locations: seq<Id>, distances: Matrix, durations: Matrix, result: SolverResult, roads: Roads,
                           planId: Id, first: Id)
  {
    ghost predicate Ok() {
      && Certified(BuildSolverInput(facts, locations, distances, durations), result)
      && RoutesBuildable(ContextOf(facts, roads, planId), result.routes, |result.routes|)
    }

    ghost function Rows(): seq<Route>
      requires Ok()
    {
      NewRoutes(ContextOf(facts, roads, planId), first, result.routes, |result.routes|)
    }
  }

  /** A recovery and the candidate written for its result. */
  datatype Answer = Answer(f: Candidate.Frame, locations: seq<Id>, distances: Matrix, durations: Matrix, result: SolverResult, first: Id)
  {
    ghost predicate Ok() {
      && Certified(Candidate.RecoveryInput(f.c, locations, distances, durations), result) && result.unassigned == []
      && Candidate.FinalDraft(f, result, first).Written?
    }

    ghost function Rows(): seq<Route>
      requires Ok()
    {
      Candidate.FinalDraft(f, result, first).rows
    }
  }

  /** A plan is executed for a while, or replaced by the candidate of a recovery that repeats nothing. */
  datatype Stage = Executed(threshold: nat, w: World, ids: seq<Id>, calls: seq<Call>) | Replanned(answer: Answer)

  /** What the stage makes of the routes of the plan. */
  ghost predicate Leads(before: seq<Route>, stage: Stage, after: seq<Route>) {
    match stage
    case Executed(threshold, w, ids, calls) =>
      && RowsIn(w, ids) && PlanRoutes(w, ids) == before
      && RowsIn(Run(threshold, w, calls), ids) && PlanRoutes(Run(threshold, w, calls), ids) == after
    case Replanned(answer) =>
      answer.Ok() && answer.f.c.routes == before && NothingRepeats(answer.f.c) && answer.Rows() == after
  }

  ghost predicate Stages(plans: seq<seq<Route>>, stages: seq<Stage>) {
    |plans| == |stages| + 1 && forall n :: 0 <= n < |stages| ==> Leads(plans[n], stages[n], plans[n + 1])
  }

  ghost predicate Life(origin: Origin, plans: seq<seq<Route>>, stages: seq<Stage>) {
    Stages(plans, stages) && origin.Ok() && plans[0] == origin.Rows()
  }

  lemma {:induction false} AnswerIsSound(answer: Answer)
    requires answer.Ok() && SoundPlan(answer.f.c.routes)
    ensures SoundPlan(answer.Rows()) <==> NothingRepeats(answer.f.c)
  {
    CandidateIsSound(answer.f, answer.locations, answer.distances, answer.durations, answer.result, answer.first);
  }

  lemma {:induction false} AnswerRowsAreOk(answer: Answer)
    requires answer.Ok() && SoundPlan(answer.f.c.routes)
    ensures forall j :: 0 <= j < |answer.Rows()| ==> BaseOk(answer.Rows()[j])
  {
    CandidateIsSound(answer.f, answer.locations, answer.distances, answer.durations, answer.result, answer.first);
  }

  lemma {:induction false} LeadsToSound(before: seq<Route>, stage: Stage, after: seq<Route>)
    requires SoundPlan(before) && Leads(before, stage, after)
    ensures SoundPlan(after)
  {
    match stage
    case Executed(threshold, w, ids, calls) => RunKeepsSound(threshold, w, calls, ids);
    case Replanned(answer) => AnswerIsSound(answer);
  }

  lemma {:induction false} OriginIsSound(origin: Origin)
    requires origin.Ok()
    ensures SoundPlan(origin.Rows())
  {
    FinalizedPlanIsSound(origin.facts, origin.locations, origin.distances, origin.durations, origin.result, origin.roads,
                         origin.planId, origin.first);
  }

  lemma {:induction false} StagesStaySound(plans: seq<seq<Route>>, stages: seq<Stage>, n: nat)
    requires Stages(plans, stages) && SoundPlan(plans[0]) && n < |plans|
    ensures SoundPlan(plans[n])
  {
    for k := 0 to n
      invariant SoundPlan(plans[k])
    {
      LeadsToSound(plans[k], stages[k], plans[k + 1]);
    }
  }

  /** Starting from the rows of a certified result, every plan that any mixture of stop actions and
      recoveries without repetition leads to is sound. */
  lemma {:induction false} EveryPlanIsSound(origin: Origin, plans: seq<seq<Route>>, stages: seq<Stage>, n: nat)
    requires Life(origin, plans, stages) && n < |plans|
    ensures SoundPlan(plans[n])
  {
    OriginIsSound(origin);
    StagesStaySound(plans, stages, n);
  }

  /** Base stop b is stop i of the row, with what it names, and what comes before it is copied before it. */
  ghost predicate CarriedOver(base: Route, row: Route, b: int, i: int) {
    CopiedWithLink(base, row, b, i) && forall a :: 0 <= a < b ==> CopiedBefore(base, row, a, i)
  }

  ghost predicate CopiedBefore(base: Route, row: Route, a: int, i: int) {
    exists k :: k < i && Copied(base, row, a, k)
  }

  /** Whatever came before, every executed stop of the last plan is in the next candidate: on the
      same vehicle, at the same place, with the same times and predecessor, and in the same order.
      This holds of candidates that repeat an action, too. */
  lemma {:induction false} ExecutedStopsAreCarriedOver(origin: Origin, plans: seq<seq<Route>>, stages: seq<Stage>, answer: Answer, r: nat, b: nat)
    returns (j: nat, i: nat)
    requires Life(origin, plans, stages) && answer.Ok() && answer.f.c.routes == plans[|stages|]
    requires r < |plans[|stages|]| && b < |plans[|stages|][r].stops| && plans[|stages|][r].stops[b].status == Completed
    ensures j < |answer.Rows()| && CarriedOver(plans[|stages|][r], answer.Rows()[j], b, i)
  {
    EveryPlanIsSound(origin, plans, stages, |stages|);
    j, i := StopIsCarriedOver(answer, r, b);
  }

  lemma {:induction false} StopIsCarriedOver(answer: Answer, r: nat, b: nat) returns (j: nat, i: nat)
    requires answer.Ok() && SoundPlan(answer.f.c.routes)
    requires r < |answer.f.c.routes| && b < |answer.f.c.routes[r].stops| && answer.f.c.routes[r].stops[b].status == Completed
    ensures j < |answer.Rows()| && CarriedOver(answer.f.c.routes[r], answer.Rows()[j], b, i)
  {
    var f, result, base := answer.f, answer.result, answer.f.c.routes[r];
    CertifiedServesNeeds(f.c, answer.locations, answer.distances, answer.durations, result);
    j, i := ExecutedStopIsCopied(f, result, answer.first, r, b);
    EarlierStopsAreCopied(f, answer.Rows()[j], base, Candidate.RoutesByVehicle(result.routes), b, i);
  }

  lemma {:induction false} EarlierStopsAreCopied(f: Candidate.Frame, row: Route, base: Route, byVehicle: map<Id, SolverRoute>, b: nat, i: nat)
    requires RowOf(f, Candidate.BaseJob(base, byVehicle), row) && BaseOk(base) && b < |base.stops| && base.stops[b].status == Completed
    requires i == Position(base.stops, LostOf(f.c, base), b)
    ensures forall a :: 0 <= a < b ==> CopiedBefore(base, row, a, i)
  {
    forall a | 0 <= a < b ensures CopiedBefore(base, row, a, i) {
      var k := EarlierStopIsCopied(f, row, base, byVehicle, a, b);
    }
  }

  /** Whatever came before, the comparison of a plan with the candidate that replaces it is not refused,
      protects exactly the executed stops and reports none of them. */
  lemma {:induction false} HistoryIsProtected(origin: Origin, plans: seq<seq<Route>>, stages: seq<Stage>, answer: Answer, members: seq<Candidate.Member>)
    requires Life(origin, plans, stages) && answer.Ok() && answer.f.c.routes == plans[|stages|] && NothingRepeats(answer.f.c)
    ensures DistinctKeys(Actions(answer.Rows()))
    ensures DiffOf(Snapshot(plans[|stages|], answer.f.c.members), Snapshot(answer.Rows(), members)).protectedStops
            == ExecutedCount(Actions(plans[|stages|]))
    ensures forall r, b :: 0 <= r < |plans[|stages|]| && 0 <= b < |plans[|stages|][r].stops| && plans[|stages|][r].stops[b].status == Completed ==>
              Unchanged(Actions(plans[|stages|]), Actions(answer.Rows()), KeyOf(plans[|stages|][r].stops[b]))
  {
    EveryPlanIsSound(origin, plans, stages, |stages|);
    var f, result, first := answer.f, answer.result, answer.first;
    CertifiedHistoryIsProtected(f, answer.locations, answer.distances, answer.durations, result, first, members);
    forall r, b | 0 <= r < |f.c.routes| && 0 <= b < |f.c.routes[r].stops| && f.c.routes[r].stops[b].status == Completed
      ensures Unchanged(Actions(f.c.routes), Actions(answer.Rows()), KeyOf(f.c.routes[r].stops[b]))
    {
      ExecutedStopsAreUnchanged(f, result, first, r, b);
    }
  }
}
