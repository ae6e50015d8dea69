/** Planned times: those of a stored plan run forward, stop actions leave them alone, and a candidate
    row keeps them running forward exactly when its new stops wait for the kept ones. */
module PlannedTimes {
  import opened Ordering
  import opened Domain
  import opened Optimization
  import opened Checker
  import opened Feasibility
  import opened Finalizer
  import opened FinalizedPlan
  import Candidate
  import opened CandidateLaws
  import opened CandidateReview
  import CandidateActions
  import RecoveryHistory
  import ExecutionInvariants
  import opened ExecutedPlans

  /** No stop is planned before an earlier one is left. */
  ghost predicate Forward(stops: seq<Stop>) {
    && (forall i :: 0 <= i < |stops| ==> stops[i].plannedArrival <= stops[i].plannedDeparture)
    && forall i, j :: 0 <= i < j < |stops| ==> stops[i].plannedDeparture <= stops[j].plannedArrival
  }

  ghost predicate SolverForward(stops: seq<SolverStop>) {
    && (forall i :: 0 <= i < |stops| ==> stops[i].arrival <= stops[i].departure)
    && forall i, j :: 0 <= i < j < |stops| ==> stops[i].departure <= stops[j].arrival
  }

  // ----- what acceptance says about times -----

  lemma {:induction false} LegsRunForward(stops: seq<SolverStop>, i: nat, j: nat)
    requires i < j < |stops| && forall k :: 0 <= k < |stops| ==> stops[k].arrival <= stops[k].departure
    requires forall k :: 0 < k < |stops| ==> stops[k - 1].departure <= stops[k].arrival
    ensures stops[i].departure <= stops[j].arrival
    decreases j
  {
    assert stops[j - 1].departure <= stops[j].arrival;
    if i < j - 1 { LegsRunForward(stops, i, j - 1); }
  }

  lemma {:induction false} FeasibleRunsForward(input: SolverInput, orders: Orders, vehicle: SolverVehicle, route: SolverRoute)
    requires input.MatricesFit() && vehicle.start in input.locations && KnownOrders(input, orders)
    requires FeasibleRoute(input, orders, vehicle, route)
    ensures SolverForward(route.stops)
  {
    var stops := route.stops;
    forall k | 0 <= k < |stops| ensures stops[k].arrival <= stops[k].departure {
      assert Honest(orders, stops, k);
      assert orders[stops[k].orderId].Valid();
    }
    forall k | 0 < k < |stops| ensures stops[k - 1].departure <= stops[k].arrival {
      assert Reachable(input, vehicle, stops, k);
    }
    forall i, j | 0 <= i < j < |stops| ensures stops[i].departure <= stops[j].arrival {
      LegsRunForward(stops, i, j);
    }
  }

  /** Every accepted route runs forward. */
  lemma {:induction false} CertifiedRunsForward(input: SolverInput, result: SolverResult, s: nat)
    requires Certified(input, result) && s < |result.routes|
    ensures SolverForward(result.routes[s].stops)
  {
    AcceptedIffFeasible(input, result);
    DictionariesAreKnown(input);
    var vehicles := VehiclesById(input.vehicles);
    assert result.routes[s].vehicleId in vehicles;
    FeasibleRunsForward(input, OrdersById(input.orders), vehicles[result.routes[s].vehicleId], result.routes[s]);
  }

  // ----- stored plans -----

  lemma {:induction false} RowTimes(c: Context, first: Id, routes: seq<SolverRoute>, i: nat, k: nat)
    requires i < |routes| && RoutesBuildable(c, routes, |routes|) && k < |routes[i].stops|
    ensures |NewRoutes(c, first, routes, |routes|)[i].stops| == |routes[i].stops|
    ensures var row, stop := NewRoutes(c, first, routes, |routes|)[i].stops[k], routes[i].stops[k];
            row.plannedArrival == c.now + stop.arrival && row.plannedDeparture == c.now + stop.departure
  {
    RowIs(c, first, routes, i, k);
  }

  /** The planned times of every stored route run forward. */
  lemma {:induction false} OriginRunsForward(origin: Origin, i: nat)
    requires origin.Ok() && i < |origin.Rows()|
    ensures Forward(origin.Rows()[i].stops)
  {
    var c, routes := ContextOf(origin.facts, origin.roads, origin.planId), origin.result.routes;
    CertifiedRunsForward(BuildSolverInput(origin.facts, origin.locations, origin.distances, origin.durations), origin.result, i);
    var stops := origin.Rows()[i].stops;
    NewRouteIsFinalized(c, origin.first, routes, i);
    forall k | 0 <= k < |stops| ensures stops[k].plannedArrival == c.now + routes[i].stops[k].arrival && stops[k].plannedDeparture == c.now + routes[i].stops[k].departure {
      RowTimes(c, origin.first, routes, i, k);
    }
  }

  /** Stop actions leave planned times alone. */
  lemma {:induction false} KeptRunsForward(x: Route, y: Route)
    requires RouteKept(x, y)
    ensures Forward(y.stops) <==> Forward(x.stops)
  {
    assert forall k :: 0 <= k < |x.stops| ==> ExecutionInvariants.SameStop(x.stops[k], y.stops[k]);
    assert forall k :: 0 <= k < |x.stops| ==>
      y.stops[k].plannedArrival == x.stops[k].plannedArrival && y.stops[k].plannedDeparture == x.stops[k].plannedDeparture;
  }

  // ----- candidates -----

  /** Nothing is kept, nothing is new, or the last kept stop is planned to be left before the first
      new one is reached. */
  predicate Waits(now: Instant, kept: seq<Stop>, added: seq<SolverStop>) {
    kept == [] || added == [] || kept[|kept| - 1].plannedDeparture <= now + added[0].arrival
  }

  lemma {:induction false} SurvivorsRunForward(stops: seq<Stop>, lost: set<Id>)
    requires Forward(stops)
    ensures Forward(Candidate.Surviving(stops, lost))
    ensures forall x :: x in Candidate.Surviving(stops, lost) ==> x in stops
  {
    if stops != [] {
      var n := |stops| - 1;
      SurvivorsRunForward(stops[..n], lost);
      var before := Candidate.Surviving(stops[..n], lost);
      forall i | 0 <= i < |before| ensures before[i].plannedDeparture <= stops[n].plannedArrival {
        assert before[i] in stops[..n];
      }
    }
  }

  /** What stop i of a written row is planned at. */
  ghost predicate TimedAt(now: Instant, kept: seq<Stop>, added: seq<SolverStop>, i: int, stop: Stop) {
    if 0 <= i < |kept| then stop.plannedArrival == kept[i].plannedArrival && stop.plannedDeparture == kept[i].plannedDeparture
    else if |kept| <= i < |kept| + |added| then
      stop.plannedArrival == now + added[i - |kept|].arrival && stop.plannedDeparture == now + added[i - |kept|].departure
    else false
  }

  ghost predicate Timed(now: Instant, kept: seq<Stop>, added: seq<SolverStop>, stops: seq<Stop>) {
    |stops| == |kept| + |added| && forall i :: 0 <= i < |stops| ==> TimedAt(now, kept, added, i, stops[i])
  }

  lemma {:induction false} RowIsTimed(f: Candidate.Frame, job: Candidate.Job, row: Route)
    requires RowOf(f, job, row)
    ensures Timed(f.c.now, f.Kept(job), f.New(job), row.stops)
  {
    var s := f.SpliceOf(job);
    forall i | 0 <= i < |row.stops| ensures TimedAt(s.now, s.preserved, s.added, i, row.stops[i]) {
      if i < |s.preserved| {
        CopyAt(s.preserved, row.id, |s.preserved|, i);
      } else {
        FreshAt(s, row.id, |s.added|, i - |s.preserved|);
      }
    }
  }

  lemma {:induction false} JoinedRunsForwardIff(now: Instant, kept: seq<Stop>, added: seq<SolverStop>, stops: seq<Stop>)
    requires Timed(now, kept, added, stops) && Forward(kept) && SolverForward(added)
    ensures Forward(stops) <==> Waits(now, kept, added)
  {
    var n := |kept|;
    assert forall i :: 0 <= i < |stops| ==> TimedAt(now, kept, added, i, stops[i]);
    if Waits(now, kept, added) {
      forall i, j | 0 <= i < j < |stops| ensures stops[i].plannedDeparture <= stops[j].plannedArrival {
        if i < n <= j {
          assert kept[i].plannedDeparture <= kept[n - 1].plannedDeparture;
          assert added[0].arrival <= added[j - n].arrival;
        }
      }
    }
    if Forward(stops) && kept != [] && added != [] {
      assert stops[n - 1].plannedDeparture <= stops[n].plannedArrival;
    }
  }

  lemma {:induction false} ByVehicleIsRoute(routes: seq<SolverRoute>, v: Id)
    ensures v in Candidate.RoutesByVehicle(routes) ==> exists s :: 0 <= s < |routes| && routes[s] == Candidate.RoutesByVehicle(routes)[v]
  {
    if routes != [] {
      ByVehicleIsRoute(routes[..|routes| - 1], v);
    }
  }

  lemma {:induction false} NewRunsForward(input: SolverInput, result: SolverResult, base: Route, f: Candidate.Frame)
    requires Certified(input, result)
    ensures SolverForward(f.New(Candidate.BaseJob(base, Candidate.RoutesByVehicle(result.routes))))
  {
    ByVehicleIsRoute(result.routes, base.vehicleId);
    if base.vehicleId in Candidate.RoutesByVehicle(result.routes) {
      var s :| 0 <= s < |result.routes| && result.routes[s] == Candidate.RoutesByVehicle(result.routes)[base.vehicleId];
      CertifiedRunsForward(input, result, s);
    }
  }

  /** The solver lets a vehicle start at once, whatever unfinished stops are kept on its route, so a kept
      stop may be planned later than the new ones behind it.  The planned times of the row written for
      base route r run forward exactly when that is not so. */
  lemma {:induction false} RowRunsForwardIff(answer: Answer, r: nat) returns (j: nat)
    requires answer.Ok() && r < |answer.f.c.routes| && Forward(answer.f.c.routes[r].stops)
    requires !answer.f.Skipped(Candidate.BaseJob(answer.f.c.routes[r], Candidate.RoutesByVehicle(answer.result.routes)))
    ensures j < |answer.Rows()|
    ensures RowOf(answer.f, Candidate.BaseJob(answer.f.c.routes[r], Candidate.RoutesByVehicle(answer.result.routes)), answer.Rows()[j])
    ensures var job := Candidate.BaseJob(answer.f.c.routes[r], Candidate.RoutesByVehicle(answer.result.routes));
            Forward(answer.Rows()[j].stops) <==> Waits(answer.f.c.now, answer.f.Kept(job), answer.f.New(job))
  {
    var f, base := answer.f, answer.f.c.routes[r];
    var job := Candidate.BaseJob(base, Candidate.RoutesByVehicle(answer.result.routes));
    j := RecoveryHistory.RowExists(f, answer.result, answer.first, r);
    NewRunsForward(Candidate.RecoveryInput(f.c, answer.locations, answer.distances, answer.durations), answer.result, base, f);
    BaseRowRunsForwardIff(f, base, job, answer.Rows()[j]);
  }

  lemma {:induction false} BaseRowRunsForwardIff(f: Candidate.Frame, base: Route, job: Candidate.Job, row: Route)
    requires RowOf(f, job, row) && job.base == Some(base) && Forward(base.stops) && SolverForward(f.New(job))
    ensures Forward(row.stops) <==> Waits(f.c.now, f.Kept(job), f.New(job))
  {
    PreservedSurvive(base, Candidate.TargetsById(f.c.targets).Keys, Candidate.RebuiltIds(f.c.targets));
    SurvivorsRunForward(base.stops, CandidateActions.LostOf(f.c, base));
    RowIsTimed(f, job, row);
    JoinedRunsForwardIff(f.c.now, f.Kept(job), f.New(job), row.stops);
  }
}
