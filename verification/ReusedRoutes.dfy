/** A candidate may give new stops to the vehicle of a base route.  It keeps the status and the
    assignment of that route, and execution refuses finished routes and ended assignments: such
    stops can never be served. */
module ReusedRoutes {
  import opened Ordering
  import opened Domain
  import opened Optimization
  import opened Finalizer
  import opened Candidate
  import opened CandidateLaws
  import opened CandidateReview
  import opened Execution
  import opened ExecutionInvariants
  import FinalizedPlan
  import GateCounterexample

  predicate Closed(status: RouteStatus) {
    status == RouteCompleted || status == RouteCancelled
  }

  predicate Over(status: AssignmentStatus) {
    status == AssignmentEnded || status == AssignmentCancelled
  }

  // ----- what is never touched again -----

  lemma {:induction false} ClosedRouteIsLeftAlone(threshold: nat, w: World, stopId: Id, a: Action, t: Instant, r: Id)
    requires r in w.routes && Closed(w.routes[r].status)
    ensures var after := Execution.Step(threshold, w, stopId, a, t); r in after.routes && after.routes[r] == w.routes[r]
  {
    if Takes(w, stopId, a, t) {
      var p := w.index[stopId];
      assert p.routeId != r;
      EffectOnRoutes(threshold, w, p, Execution.Target(a), t);
    }
  }

  /** No sequence of calls changes a completed or cancelled route. */
  lemma {:induction false} ClosedRouteNeverChanges(threshold: nat, w: World, calls: seq<Call>, r: Id)
    requires r in w.routes && Closed(w.routes[r].status)
    ensures r in Run(threshold, w, calls).routes && Run(threshold, w, calls).routes[r] == w.routes[r]
    decreases |calls|
  {
    if calls != [] {
      var n := |calls| - 1;
      ClosedRouteNeverChanges(threshold, w, calls[..n], r);
      ClosedRouteIsLeftAlone(threshold, Run(threshold, w, calls[..n]), calls[n].stopId, calls[n].action, calls[n].at, r);
    }
  }

  /** The assignment of route r is over. */
  ghost predicate Unassigned(w: World, r: Id) {
    r in w.routes && w.routes[r].assignmentId in w.assignments && Over(w.assignments[w.routes[r].assignmentId].status)
  }

  lemma {:induction false} UnassignedRouteIsLeftAlone(threshold: nat, w: World, stopId: Id, a: Action, t: Instant, r: Id)
    requires Unassigned(w, r)
    ensures var after := Execution.Step(threshold, w, stopId, a, t); Unassigned(after, r) && after.routes[r] == w.routes[r]
  {
    if Takes(w, stopId, a, t) {
      var p := w.index[stopId];
      assert w.routes[p.routeId].assignmentId != w.routes[r].assignmentId;
      EffectOnRoutes(threshold, w, p, Execution.Target(a), t);
    }
  }

  /** No sequence of calls changes a route whose assignment is over. */
  lemma {:induction false} UnassignedRouteNeverChanges(threshold: nat, w: World, calls: seq<Call>, r: Id)
    requires Unassigned(w, r)
    ensures Unassigned(Run(threshold, w, calls), r) && Run(threshold, w, calls).routes[r] == w.routes[r]
    decreases |calls|
  {
    if calls != [] {
      var n := |calls| - 1;
      UnassignedRouteNeverChanges(threshold, w, calls[..n], r);
      UnassignedRouteIsLeftAlone(threshold, Run(threshold, w, calls[..n]), calls[n].stopId, calls[n].action, calls[n].at, r);
    }
  }

  // ----- driving a route stop by stop -----

  /** Everything but the route and its assignment allows its stops to be served. */
  ghost predicate Prepared(w: World, route: Route) {
    && route.planId in w.plans && w.plans[route.planId] == PlanCurrent
    && route.vehicleId in w.vehicles && w.vehicles[route.vehicleId] != Unavailable
    && route.driverId in w.drivers && w.drivers[route.driverId] != Unavailable
    && route.assignmentId in w.assignments
    && forall i :: 0 <= i < |route.stops| ==> route.stops[i].orderId in w.orders
  }

  /** The stops of route r are numbered and found by their ids. */
  ghost predicate Listed(w: World, r: Id) {
    && r in w.routes
    && forall i :: 0 <= i < |w.routes[r].stops| ==> ListedAt(w, r, i)
  }

  ghost predicate ListedAt(w: World, r: Id, i: int)
    requires r in w.routes && 0 <= i < |w.routes[r].stops|
  {
    var stop := w.routes[r].stops[i];
    stop.sequenceNo == i + 1 && stop.id in w.index && w.index[stop.id] == Place(r, i)
  }

  /** And both allow it too. */
  ghost predicate Runs(w: World, r: Id) {
    && Listed(w, r) && Prepared(w, w.routes[r]) && !Closed(w.routes[r].status)
    && !Over(w.assignments[w.routes[r].assignmentId].status)
  }

  ghost predicate DoneBefore(w: World, r: Id, i: int) {
    r in w.routes && forall j :: 0 <= j < i && j < |w.routes[r].stops| ==> w.routes[r].stops[j].status == Completed
  }

  ghost predicate Waiting(w: World, r: Id, k: int) {
    r in w.routes && 0 <= k < |w.routes[r].stops| && w.routes[r].stops[k].status == Planned
  }

  /** What an action at stop i leaves: stop i moved, and the route still runs if stop k is waiting. */
  ghost predicate MovedOn(w: World, after: World, r: Id, i: int, a: Action) {
    && r in w.routes && r in after.routes && 0 <= i < |w.routes[r].stops| == |after.routes[r].stops|
    && after.routes[r].stops[i].status == Execution.Target(a)
    && forall j :: 0 <= j < |w.routes[r].stops| && j != i ==> after.routes[r].stops[j] == w.routes[r].stops[j]
  }

  /** A time that no check refuses. */
  function TimeFor(stops: seq<Stop>, i: nat): Instant
    requires i < |stops|
  {
    Max(Or(stops[i].actualArrival, 0), if i == 0 then 0 else Or(stops[i - 1].actualDeparture, 0))
  }

  lemma {:induction false} TimeIsOk(stops: seq<Stop>, i: nat, target: StopStatus)
    requires i < |stops| && forall j :: 0 <= j < |stops| ==> stops[j].sequenceNo == j + 1
    ensures EventTimeOk(stops, i, TimeFor(stops, i), target)
  {
    PreviousIsNeighbour(stops, |stops|, i);
    assert stops[..|stops|] == stops;
  }

  lemma {:induction false} ActionIsTaken(w: World, r: Id, i: nat, a: Action)
    requires Runs(w, r) && i < |w.routes[r].stops| && DoneBefore(w, r, i) && w.routes[r].stops[i].status == Expected(a)
    ensures Takes(w, w.routes[r].stops[i].id, a, TimeFor(w.routes[r].stops, i))
    ensures Ready(w, Place(r, i))
  {
    var stops := w.routes[r].stops;
    assert ListedAt(w, r, i);
    forall j | 0 <= j < |stops| ensures stops[j].sequenceNo == j + 1 {
      assert ListedAt(w, r, j);
    }
    TimeIsOk(stops, i, Execution.Target(a));
  }

  /** Resources stay usable while the route goes on. */
  lemma {:induction false} EffectOnResources(threshold: nat, w: World, p: Place, target: StopStatus, t: Instant)
    requires Ready(w, p) && !AllCompleted(MovedStops(w.routes[p.routeId], p.at, target, t))
    ensures var route, after := w.routes[p.routeId], Effect(threshold, w, p, target, t);
            && after.vehicles == w.vehicles[route.vehicleId := MovedResource(w.vehicles[route.vehicleId], route.status == RoutePlanned, false)]
            && after.drivers == w.drivers[route.driverId := MovedResource(w.drivers[route.driverId], route.status == RoutePlanned, false)]
            && after.assignments == w.assignments[route.assignmentId :=
                 MovedAssignment(w.assignments[route.assignmentId], route.status == RoutePlanned, false, t)]
            && after.routes[p.routeId] == Started(route, t).(stops := MovedStops(route, p.at, target, t))
  {
  }

  lemma {:induction false} StaysListed(w: World, after: World, r: Id, k: nat, target: StopStatus, t: Instant)
    requires Listed(w, r) && RoutesMoved(w, after, Place(r, k), target, t)
    ensures Listed(after, r) && after.routes[r].stops == MovedStops(w.routes[r], k, target, t)
  {
    forall j | 0 <= j < |w.routes[r].stops| ensures ListedAt(after, r, j) {
      assert ListedAt(w, r, j);
    }
  }

  lemma {:induction false} StaysPrepared(threshold: nat, w: World, r: Id, i: nat, target: StopStatus, t: Instant)
    requires Runs(w, r) && Ready(w, Place(r, i)) && !AllCompleted(MovedStops(w.routes[r], i, target, t))
    ensures var after := Effect(threshold, w, Place(r, i), target, t);
            && Prepared(after, after.routes[r]) && !Closed(after.routes[r].status)
            && !Over(after.assignments[after.routes[r].assignmentId].status)
  {
    EffectOnResources(threshold, w, Place(r, i), target, t);
    EffectOnOrders(threshold, w, Place(r, i), target, t);
  }

  lemma {:induction false} ActionGoesOn(threshold: nat, w: World, r: Id, i: nat, a: Action, k: nat)
    requires Runs(w, r) && i < |w.routes[r].stops| && DoneBefore(w, r, i) && w.routes[r].stops[i].status == Expected(a)
    requires Waiting(w, r, k) && i != k
    ensures var after := Execution.Step(threshold, w, w.routes[r].stops[i].id, a, TimeFor(w.routes[r].stops, i));
            MovedOn(w, after, r, i, a) && Runs(after, r) && Waiting(after, r, k)
  {
    var t, p, target := TimeFor(w.routes[r].stops, i), Place(r, i), Execution.Target(a);
    ActionIsTaken(w, r, i, a);
    assert ListedAt(w, r, i);
    assert MovedStops(w.routes[r], i, target, t)[k].status == Planned;
    StaysPrepared(threshold, w, r, i, target, t);
    EffectOnRoutes(threshold, w, p, target, t);
    StaysListed(w, Effect(threshold, w, p, target, t), r, i, target, t);
  }

  lemma {:induction false} RunsOn(threshold: nat, w: World, some: seq<Call>, more: seq<Call>)
    ensures Run(threshold, w, some + more) == Run(threshold, Run(threshold, w, some), more)
  {
    if more == [] {
      assert some + more == some;
    } else {
      assert (some + more)[..|some + more| - 1] == some + more[..|more| - 1];
      RunsOn(threshold, w, some, more[..|more| - 1]);
    }
  }

  lemma {:induction false} RunsOne(threshold: nat, w: World, call: Call)
    ensures Run(threshold, w, [call]) == Execution.Step(threshold, w, call.stopId, call.action, call.at)
  {
    assert [call][..0] == [] && Run(threshold, w, []) == w;
  }

  function NextAction(status: StopStatus): Action {
    match status case Planned => Arrive case Arrived => StartService case _ => Complete
  }

  function Steps(status: StopStatus): nat {
    match status case Planned => 3 case Arrived => 2 case InService => 1 case Completed => 0
  }

  /** The next unfinished stop can be finished, however far it has come. */
  lemma {:induction false} StopIsFinished(threshold: nat, w: World, r: Id, i: nat, k: nat) returns (calls: seq<Call>)
    requires Runs(w, r) && DoneBefore(w, r, i) && Waiting(w, r, k) && i < k
    ensures var after := Run(threshold, w, calls); Runs(after, r) && DoneBefore(after, r, i + 1) && Waiting(after, r, k)
    decreases Steps(w.routes[r].stops[i].status)
  {
    var stop := w.routes[r].stops[i];
    if stop.status == Completed {
      calls := [];
    } else {
      var a, t := NextAction(stop.status), TimeFor(w.routes[r].stops, i);
      ActionGoesOn(threshold, w, r, i, a, k);
      var rest := StopIsFinished(threshold, Execution.Step(threshold, w, stop.id, a, t), r, i, k);
      calls := [Call(stop.id, a, t)] + rest;
      RunsOne(threshold, w, Call(stop.id, a, t));
      RunsOn(threshold, w, [Call(stop.id, a, t)], rest);
    }
  }

  /** So every stop up to a waiting one can be finished. */
  lemma {:induction false} StopsAreFinished(threshold: nat, w: World, r: Id, i: nat, k: nat) returns (calls: seq<Call>)
    requires Runs(w, r) && DoneBefore(w, r, i) && Waiting(w, r, k) && i <= k
    ensures var after := Run(threshold, w, calls); Runs(after, r) && DoneBefore(after, r, k) && Waiting(after, r, k)
    decreases k - i
  {
    if i == k {
      calls := [];
    } else {
      var some := StopIsFinished(threshold, w, r, i, k);
      var more := StopsAreFinished(threshold, Run(threshold, w, some), r, i + 1, k);
      calls := some + more;
      RunsOn(threshold, w, some, more);
    }
  }

  ghost predicate Served(w: World, r: Id, k: nat) {
    r in w.routes && k < |w.routes[r].stops| && w.routes[r].stops[k].status != Planned
  }

  lemma {:induction false} WaitingStopIsServed(threshold: nat, w: World, r: Id, k: nat) returns (calls: seq<Call>)
    requires Runs(w, r) && Waiting(w, r, k)
    ensures Served(Run(threshold, w, calls), r, k)
  {
    var some := StopsAreFinished(threshold, w, r, 0, k);
    var now := Run(threshold, w, some);
    var stop, t := now.routes[r].stops[k], TimeFor(now.routes[r].stops, k);
    ActionIsTaken(now, r, k, Arrive);
    assert ListedAt(now, r, k);
    EffectOnRoutes(threshold, now, Place(r, k), Arrived, t);
    RunsOne(threshold, now, Call(stop.id, Arrive, t));
    RunsOn(threshold, w, some, [Call(stop.id, Arrive, t)]);
    calls := some + [Call(stop.id, Arrive, t)];
  }

  // ----- the row of a base route with new stops -----

  /** Row r of the tables is the candidate row of a base route that got new stops. */
  ghost predicate Installed(w: World, f: Frame, job: Job, r: Id, routeNo: int) {
    && job.base.Some? && job.solver.Some? && f.Buildable(job)
    && r in w.routes && w.routes[r] == f.Row(job, r, routeNo)
    && forall i :: 0 <= i < |w.routes[r].stops| ==> Indexed(w, r, i)
  }

  ghost predicate Indexed(w: World, r: Id, i: int) {
    0 <= i && r + 1 + i in w.index && w.index[r + 1 + i] == Place(r, i)
  }

  lemma {:induction false} RowIsListed(w: World, f: Frame, job: Job, r: Id, routeNo: int)
    requires Installed(w, f, job, r, routeNo)
    ensures Listed(w, r) && |w.routes[r].stops| == |f.Kept(job)| + |f.New(job)|
    ensures w.routes[r].status == job.base.value.status && w.routes[r].assignmentId == job.base.value.assignmentId
  {
    WrittenRow(f, job, r, routeNo);
    forall i | 0 <= i < |w.routes[r].stops| ensures ListedAt(w, r, i) {
      assert Indexed(w, r, i);
      RowAt(f.SpliceOf(job), r, i);
    }
  }

  lemma {:induction false} NewStopIsWaiting(w: World, f: Frame, job: Job, r: Id, routeNo: int, k: nat)
    requires Installed(w, f, job, r, routeNo) && |f.Kept(job)| <= k < |w.routes[r].stops|
    ensures Waiting(w, r, k)
  {
    WrittenRow(f, job, r, routeNo);
    FreshAt(f.SpliceOf(job), r, |f.New(job)|, k - |f.Kept(job)|);
  }

  /** A new stop on a reused route can ever be served exactly when the base route was still open and
      its assignment is not over, whatever stops were kept and however far they have come.  A
      vehicle that had finished its route gets its new stops on a route that stays completed. */
  lemma {:induction false} ReusedRouteRunsIff(threshold: nat, w: World, f: Frame, job: Job, r: Id, routeNo: int, k: nat)
    requires Installed(w, f, job, r, routeNo) && Prepared(w, w.routes[r]) && |f.Kept(job)| <= k < |w.routes[r].stops|
    ensures job.base.value.assignmentId in w.assignments
    ensures (exists calls :: Served(Run(threshold, w, calls), r, k))
            <==> !Closed(job.base.value.status) && !Over(w.assignments[job.base.value.assignmentId].status)
  {
    RowIsListed(w, f, job, r, routeNo);
    NewStopIsWaiting(w, f, job, r, routeNo, k);
    if Closed(w.routes[r].status) || Unassigned(w, r) {
      forall calls ensures !Served(Run(threshold, w, calls), r, k) {
        StoppedRouteNeverChanges(threshold, w, calls, r);
      }
    } else {
      var calls := WaitingStopIsServed(threshold, w, r, k);
      assert exists calls :: Served(Run(threshold, w, calls), r, k);
    }
  }

  lemma {:induction false} StoppedRouteNeverChanges(threshold: nat, w: World, calls: seq<Call>, r: Id)
    requires r in w.routes && (Closed(w.routes[r].status) || Unassigned(w, r))
    ensures r in Run(threshold, w, calls).routes && Run(threshold, w, calls).routes[r] == w.routes[r]
  {
    if Unassigned(w, r) {
      UnassignedRouteNeverChanges(threshold, w, calls, r);
    } else {
      ClosedRouteNeverChanges(threshold, w, calls, r);
    }
  }

  // ----- a vehicle that had finished its route -----

  const ROW: Id := 1000

  /** The accepted recovery of `GateCounterexample` sends order 7 to vehicle 1, which is free again. */
  function NewRow(): Route {
    GateCounterexample.JobsAreBuildable();
    GateCounterexample.Setting().Row(GateCounterexample.Receiving(), ROW, 1)
  }

  /** Its candidate as the current plan; the vehicle's old assignment ended with the route. */
  function Tables(): World {
    World(map[900 := PlanCurrent], map[1001 := Place(ROW, 0), 1002 := Place(ROW, 1), 1003 := Place(ROW, 2), 1004 := Place(ROW, 3)],
          map[ROW := NewRow()],
          map[7 := Order(PickedUp, Normal, 100, 1), 8 := Order(OrderCompleted, Normal, 100, 1)],
          map[1 := Available], map[1 := Available], map[1 := Assignment(AssignmentEnded, Some(0), Some(10))])
  }

  lemma {:induction false} RowIsInstalled()
    ensures Installed(Tables(), GateCounterexample.Setting(), GateCounterexample.Receiving(), ROW, 1)
    ensures |NewRow().stops| == 4 && |GateCounterexample.Setting().Kept(GateCounterexample.Receiving())| == 2
  {
    GateCounterexample.JobsAreBuildable();
    GateCounterexample.KeptParts();
    WrittenRow(GateCounterexample.Setting(), GateCounterexample.Receiving(), ROW, 1);
  }

  lemma {:induction false} SpliceOrder(s: Splice, i: nat)
    requires s.preserved == GateCounterexample.Receiver().stops && s.added == GateCounterexample.Answer().routes[0].stops && i < 4
    ensures OrderAt(s, i) == if i < 2 then 8 else 7
  {
  }

  lemma {:induction false} RowOrder(i: nat)
    requires i < 4
    ensures |NewRow().stops| == 4 && NewRow().stops[i].orderId == if i < 2 then 8 else 7
  {
    var f, job := GateCounterexample.Setting(), GateCounterexample.Receiving();
    RowIsInstalled();
    GateCounterexample.KeptParts();
    WrittenRow(f, job, ROW, 1);
    SpliceOrder(f.SpliceOf(job), i);
    RowAt(f.SpliceOf(job), ROW, i);
  }

  lemma {:induction false} RowIsPrepared()
    ensures Prepared(Tables(), NewRow())
  {
    forall i | 0 <= i < |NewRow().stops| ensures NewRow().stops[i].orderId in Tables().orders {
      RowIsInstalled();
      RowOrder(i);
    }
  }

  /** The recovery is accepted with every order assigned, and neither the handover nor the delivery it
      plans can ever be served. */
  lemma {:induction false} FinishedVehicleIsStranded(threshold: nat, calls: seq<Call>, k: nat)
    requires 2 <= k < 4
    ensures FinalizedPlan.Certified(GateCounterexample.Input(), GateCounterexample.Answer()) && GateCounterexample.Answer().unassigned == []
    ensures NewRow().stops[k].orderId == GateCounterexample.ORDER && !Served(Run(threshold, Tables(), calls), ROW, k)
  {
    GateCounterexample.AnswerIsCertified();
    var f, job := GateCounterexample.Setting(), GateCounterexample.Receiving();
    RowIsInstalled();
    RowIsPrepared();
    ReusedRouteRunsIff(threshold, Tables(), f, job, ROW, 1, k);
    RowOrder(k);
  }
}
