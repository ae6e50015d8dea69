/** Recovery on a balanced ledger: which recoveries repeat an action, and that every other one that passes the
    gate leaves a balanced ledger. */
module LedgerRecovery {
  import opened Ordering
  import opened Domain
  import opened Optimization
  import Feasibility
  import opened FinalizedPlan
  import opened Candidate
  import opened CandidateLaws
  import opened CandidateReview
  import opened Comparison
  import opened RecoveryHistory
  import opened CandidateActions
  import ExecutionInvariants
  import Execution
  import RecoveryContext
  import opened ExecutedPlans
  import ReplannedOrders
  import opened PlanLedger

  type Base = RecoveryContext.Base
  type Scope = RecoveryContext.Scope

  // ----- a context that is read from the ledger -----

  ghost predicate RowRead(b: Base, l: Ledger, o: Id) {
    && o in b.rows && o in l.status && o in l.routeOf
    && b.rows[o].order.orderId == o && b.rows[o].status == l.status[o] && b.rows[o].routeId == l.routeOf[o]
  }

  /** Members, routes and orders are those of the ledger; the incident is a new one. */
  ghost predicate Reads(l: Ledger, b: Base, scope: Scope, targets: set<Id>, c: Recovery) {
    && (forall o :: o in l.routeOf || o in b.rows ==> RowRead(b, l, o))
    && (forall r :: 0 <= r < |l.routes| ==> l.routes[r].id in b.routes && b.routes[l.routes[r].id] == l.routes[r])
    && (forall o :: o in targets <==> RecoveryContext.InScope(b, scope, o))
    && RecoveryContext.FactsOf(b, Ascending(targets), c.targets) && c.routes == l.routes
    && (forall i :: 0 <= i < |c.members| ==> c.members[i].orderId in l.routeOf)
    && (forall o :: o in l.routeOf ==> exists i :: 0 <= i < |c.members| && c.members[i].orderId == o)
    && forall r, k :: StopAt(l, r, k) ==> l.routes[r].stops[k].incident != Some(c.incidentId)
  }

  lemma {:induction false} TargetIsRead(l: Ledger, b: Base, scope: Scope, targets: set<Id>, c: Recovery, o: Id)
    requires Reads(l, b, scope, targets, c) && o in TargetsById(c.targets)
    ensures o in targets && RowRead(b, l, o) && RecoveryContext.Obstacle(b, o) == None && TargetsById(c.targets)[o] == RecoveryContext.FactOf(b, o)
  {
    assert forall o :: o in b.rows ==> RowRead(b, l, o);
    ReplannedOrders.TargetsAre(b, targets, c.targets);
  }

  lemma {:induction false} TargetsAreTargets(l: Ledger, b: Base, scope: Scope, targets: set<Id>, c: Recovery)
    requires Reads(l, b, scope, targets, c)
    ensures TargetsById(c.targets).Keys == targets
  {
    assert forall o :: o in b.rows ==> RowRead(b, l, o);
    ReplannedOrders.TargetsAre(b, targets, c.targets);
  }

  /** The route of an open stop of a target gives it up. */
  lemma {:induction false} OpenStopIsGivenUp(l: Ledger, b: Base, scope: Scope, targets: set<Id>, c: Recovery, r: int, k: int)
    requires Balanced(l) && Reads(l, b, scope, targets, c) && StopAt(l, r, k)
    requires l.routes[r].stops[k].status != Completed && OrderOf(l, r, k) in TargetsById(c.targets)
    ensures !Survives(l.routes[r].stops[k], LostOf(c, l.routes[r]))
  {
    var o := OrderOf(l, r, k);
    assert Booked(l, r, k) && Agrees(l, r, k);
    TargetIsRead(l, b, scope, targets, c, o);
    ReplannedOrders.TargetRouteIsRebuilt(b, targets, c.targets, o);
  }

  /** A pickup that is done is needed again by no open order. */
  lemma {:induction false} DonePickupNotNeeded(l: Ledger, b: Base, scope: Scope, targets: set<Id>, c: Recovery, o: Id)
    requires Balanced(l) && Reads(l, b, scope, targets, c) && o in TargetsById(c.targets) && o in l.status
    requires 2 <= Execution.Rank(l.status[o]) && l.status[o] != OrderCompleted
    ensures !Needs(TargetsById(c.targets)[o], Pickup)
  {
    TargetIsRead(l, b, scope, targets, c, o);
    assert Tracked(l, o) && OnRoute(l, o);
    var r :| 0 <= r < |l.routes| && l.routes[r].id == l.routeOf[o].value;
    assert l.routes[r].id in b.routes;
    RoutedOnBoard(b, o);
  }

  lemma {:induction false} RoutedOnBoard(b: Base, o: Id)
    requires RecoveryContext.Obstacle(b, o) == None && RecoveryContext.OnBoard(b.rows[o]) && RecoveryContext.HasRoute(b, b.rows[o])
    ensures !Needs(RecoveryContext.FactOf(b, o), Pickup)
  {
  }

  /** What is repeated belongs to a completed order. */
  lemma {:induction false} RepeatIsOfCompleted(l: Ledger, b: Base, scope: Scope, targets: set<Id>, c: Recovery, r: int, k: int)
    requires Balanced(l) && Reads(l, b, scope, targets, c) && Repeats(c, r, k)
    ensures OrderOf(l, r, k) in targets && ReplannedOrders.Finished(b, OrderOf(l, r, k))
  {
    var o, stop := OrderOf(l, r, k), l.routes[r].stops[k];
    assert StopAt(l, r, k) && Booked(l, r, k) && Agrees(l, r, k);
    TargetIsRead(l, b, scope, targets, c, o);
    if stop.status != Completed {
      OpenStopIsGivenUp(l, b, scope, targets, c, r, k);
    } else if stop.kind == Pickup && l.status[o] != OrderCompleted {
      DonePickupNotNeeded(l, b, scope, targets, c, o);
    }
  }

  lemma {:induction false} CompletedIsRepeated(l: Ledger, b: Base, scope: Scope, targets: set<Id>, c: Recovery, o: Id)
    requires Balanced(l) && Reads(l, b, scope, targets, c) && o in targets && ReplannedOrders.Finished(b, o)
    ensures !NothingRepeats(c)
  {
    TargetsAreTargets(l, b, scope, targets, c);
    TargetIsRead(l, b, scope, targets, c, o);
    assert Tracked(l, o);
    var r, k :| StopAt(l, r, k) && OrderOf(l, r, k) == o && l.routes[r].stops[k].kind == Delivery;
    assert Booked(l, r, k) && Agrees(l, r, k);
    assert Repeats(c, r, k);
  }

  /** For a context read from a balanced ledger: the recovery repeats an action exactly when an affected
      order has been completed. */
  lemma {:induction false} RepeatsIffFinished(l: Ledger, b: Base, scope: Scope, targets: set<Id>, c: Recovery)
    requires Balanced(l) && Reads(l, b, scope, targets, c)
    ensures NothingRepeats(c) <==> ReplannedOrders.NoneFinished(b)
  {
    if o :| RecoveryContext.Affected(b, o) && ReplannedOrders.Finished(b, o) {
      assert RecoveryContext.InScope(b, scope, o);
      CompletedIsRepeated(l, b, scope, targets, c, o);
    }
    if r, k :| Repeats(c, r, k) {
      RepeatIsOfCompleted(l, b, scope, targets, c, r, k);
      assert RecoveryContext.InScope(b, scope, OrderOf(l, r, k));
    }
  }

  // ----- where a stop of a candidate comes from -----

  /** Stop i of the row is the copy of base stop (r, k). */
  ghost predicate FromBase(c: Recovery, row: Route, i: int, r: int, k: int) {
    && 0 <= i < |row.stops| && 0 <= r < |c.routes| && 0 <= k < |c.routes[r].stops| && row.vehicleId == c.routes[r].vehicleId
    && Survives(c.routes[r].stops[k], LostOf(c, c.routes[r])) && i == Position(c.routes[r].stops, LostOf(c, c.routes[r]), k)
    && row.stops[i].orderId == c.routes[r].stops[k].orderId && row.stops[i].kind == c.routes[r].stops[k].kind
    && row.stops[i].status == c.routes[r].stops[k].status
  }

  /** Stop i of the row is stop m of solver route s, behind n kept ones. */
  ghost predicate FromSolver(result: SolverResult, row: Route, i: int, n: int, s: int, m: int) {
    && 0 <= i < |row.stops| && 0 <= s < |result.routes| && 0 <= m < |result.routes[s].stops| && i == n + m
    && row.vehicleId == result.routes[s].vehicleId && row.stops[i].orderId == result.routes[s].stops[m].orderId
    && row.stops[i].kind == result.routes[s].stops[m].kind && row.stops[i].status == Planned
  }

  ghost predicate JobFrom(f: Frame, result: SolverResult, job: Job) {
    && (job.base.Some? ==> job.base.value in f.c.routes)
    && (job.solver.Some? ==> job.solver.value in result.routes
                             && (job.base.Some? ==> job.solver.value.vehicleId == job.base.value.vehicleId))
    && (job.base.Some? || job.solver.Some?)
  }

  lemma {:induction false} BaseJobsFrom(f: Frame, result: SolverResult, n: nat, j: nat)
    requires n <= |f.c.routes| && j < |BaseJobs(f, RoutesByVehicle(result.routes), n)|
    ensures JobFrom(f, result, BaseJobs(f, RoutesByVehicle(result.routes), n)[j])
  {
    if j < |BaseJobs(f, RoutesByVehicle(result.routes), n - 1)| {
      BaseJobsFrom(f, result, n - 1, j);
    } else {
      RoutesByVehicleIs(result.routes);
    }
  }

  lemma {:induction false} LeftoverJobsFrom(f: Frame, result: SolverResult, n: nat, j: nat)
    requires n <= |result.routes| && j < |LeftoverJobs(f, result.routes, n)|
    ensures JobFrom(f, result, LeftoverJobs(f, result.routes, n)[j])
  {
    if j < |LeftoverJobs(f, result.routes, n - 1)| { LeftoverJobsFrom(f, result, n - 1, j); }
  }

  /** The job that row j was written for. */
  lemma {:induction false} RowHasJob(f: Frame, result: SolverResult, first: Id, j: nat) returns (job: Job)
    requires FinalDraft(f, result, first).Written? && j < |FinalDraft(f, result, first).rows|
    ensures JobFrom(f, result, job) && RowOf(f, job, FinalDraft(f, result, first).rows[j])
  {
    var byVehicle := RoutesByVehicle(result.routes);
    BaseRowsOfJobs(f, byVehicle, first, |f.c.routes|);
    LeftoverRowsOfJobs(f, result.routes, BaseDraft(f, byVehicle, first, |f.c.routes|), BaseJobs(f, byVehicle, |f.c.routes|), |result.routes|);
    job := Jobs(f, result)[j];
    var n := |BaseJobs(f, byVehicle, |f.c.routes|)|;
    if j < n {
      BaseJobsFrom(f, result, |f.c.routes|, j);
    } else {
      LeftoverJobsFrom(f, result, |result.routes|, j - n);
    }
  }

  lemma {:induction false} KeptStopFrom(f: Frame, result: SolverResult, job: Job, row: Route, i: nat) returns (r: nat, k: nat)
    requires JobFrom(f, result, job) && RowOf(f, job, row) && i < |f.Kept(job)|
    ensures FromBase(f.c, row, i, r, k)
  {
    k := KeptKey(f, job, row, i);
    r :| 0 <= r < |f.c.routes| && f.c.routes[r] == job.base.value;
    CopyAt(f.Kept(job), row.id, |f.Kept(job)|, i);
  }

  lemma {:induction false} NewStopFrom(f: Frame, result: SolverResult, job: Job, row: Route, i: nat) returns (s: nat, m: nat)
    requires JobFrom(f, result, job) && RowOf(f, job, row) && |f.Kept(job)| <= i < |row.stops|
    ensures FromSolver(result, row, i, |f.Kept(job)|, s, m)
  {
    m := i - |f.Kept(job)|;
    s :| 0 <= s < |result.routes| && result.routes[s] == job.solver.value;
    FreshAt(f.SpliceOf(job), row.id, |f.New(job)|, m);
  }

  // ----- the ledger of a candidate -----

  /** Everything the next ledger is made from. */
  datatype Turn = Turn(l: Ledger, b: Base, scope: Scope, targets: set<Id>, answer: Answer)
  {
    ghost predicate Ok() {
      && Balanced(l) && SoundPlan(l.routes) && Reads(l, b, scope, targets, answer.f.c) && answer.Ok()
      && ReplannedOrders.NoneFinished(b)
    }

    ghost function Draft(): Draft {
      FinalDraft(answer.f, answer.result, answer.first)
    }

    /** The gate's condition. */
    ghost predicate Passes()
      requires Draft().Written?
    {
      forall o :: o in l.routeOf ==> LastRowDelivers(Draft().rows, o)
    }

    /** `route_by_order` becomes the memberships. */
    ghost function Next(): Ledger
      requires Draft().Written?
    {
      Ledger(Draft().rows, l.status,
             map o | o in l.routeOf :: if o in Draft().routeByOrder then Some(Draft().routeByOrder[o]) else None)
    }
  }

  lemma {:induction false} NothingIsRepeated(x: Turn)
    requires x.Ok()
    ensures NothingRepeats(x.answer.f.c) && ServesNeeds(x.answer.f.c, x.answer.result.routes) && DistinctVehicles(x.answer.result.routes)
    ensures x.Draft().Written? && x.answer.f.c.routes == x.l.routes && OneRoutePerVehicle(x.l.routes)
  {
    RepeatsIffFinished(x.l, x.b, x.scope, x.targets, x.answer.f.c);
    CertifiedServesNeeds(x.answer.f.c, x.answer.locations, x.answer.distances, x.answer.durations, x.answer.result);
  }

  /** Where stop i of row j comes from: the base plan or the solver. */
  ghost predicate Comes(x: Turn, j: int, i: int, n: int)
    requires x.Draft().Written? && 0 <= j < |x.Draft().rows|
  {
    var row := x.Draft().rows[j];
    && (i < n ==> exists r, k :: FromBase(x.answer.f.c, row, i, r, k))
    && (n <= i ==> exists s, m :: FromSolver(x.answer.result, row, i, n, s, m))
  }

  lemma {:induction false} RowStopsCome(x: Turn, j: nat) returns (n: nat)
    requires x.Ok() && x.Draft().Written? && j < |x.Draft().rows|
    ensures forall i :: 0 <= i < |x.Draft().rows[j].stops| ==> Comes(x, j, i, n)
  {
    var row := x.Draft().rows[j];
    var job := RowHasJob(x.answer.f, x.answer.result, x.answer.first, j);
    n := |x.answer.f.Kept(job)|;
    forall i | 0 <= i < |row.stops| ensures Comes(x, j, i, n) {
      if i < n {
        var r, k := KeptStopFrom(x.answer.f, x.answer.result, job, row, i);
      } else {
        var s, m := NewStopFrom(x.answer.f, x.answer.result, job, row, i);
      }
    }
  }

  /** A new stop belongs to a target, which is not completed. */
  lemma {:induction false} NewStopIsOpen(x: Turn, s: int, m: int)
    requires x.Ok() && 0 <= s < |x.answer.result.routes| && 0 <= m < |x.answer.result.routes[s].stops|
    ensures var o := x.answer.result.routes[s].stops[m].orderId;
            o in TargetsById(x.answer.f.c.targets) && o in x.l.status && o in x.l.routeOf && x.l.status[o] != OrderCompleted
  {
    NothingIsRepeated(x);
    var stop := x.answer.result.routes[s].stops[m];
    assert NeedAt(TargetsById(x.answer.f.c.targets), stop);
    TargetIsRead(x.l, x.b, x.scope, x.targets, x.answer.f.c, stop.orderId);
    if x.l.status[stop.orderId] == OrderCompleted {
      CompletedIsRepeated(x.l, x.b, x.scope, x.targets, x.answer.f.c, stop.orderId);
    }
  }

  /** Everything but the membership agrees. */
  lemma {:induction false} StopAgrees(x: Turn, j: nat, i: nat)
    requires x.Ok() && x.Draft().Written? && StopAt(x.Next(), j, i)
    ensures Booked(x.Next(), j, i)
    ensures var stop, status := x.Next().routes[j].stops[i], x.Next().status[OrderOf(x.Next(), j, i)];
            && (stop.kind == Delivery ==> (stop.status == Completed <==> status == OrderCompleted))
            && (stop.kind == Pickup && stop.status == Completed ==> 2 <= Execution.Rank(status))
            && (stop.status != Completed ==> status != OrderCompleted)
  {
    var n := RowStopsCome(x, j);
    var row := x.Draft().rows[j];
    assert Comes(x, j, i, n);
    if i < n {
      var r, k :| FromBase(x.answer.f.c, row, i, r, k);
      assert StopAt(x.l, r, k) && Booked(x.l, r, k) && Agrees(x.l, r, k);
    } else {
      var s, m :| FromSolver(x.answer.result, row, i, n, s, m);
      NewStopIsOpen(x, s, m);
    }
  }

  lemma {:induction false} OneSolverRoute(x: Turn, s: int, u: int, o: Id)
    requires x.Ok() && Feasibility.OnRoute(x.answer.result.routes, s, o) && Feasibility.OnRoute(x.answer.result.routes, u, o)
    ensures s == u
  {
    var k :| 0 <= k < |x.answer.result.routes[s].stops| && x.answer.result.routes[s].stops[k].orderId == o;
    NewStopIsOpen(x, s, k);
    var input := RecoveryInput(x.answer.f.c, x.answer.locations, x.answer.distances, x.answer.durations);
    Feasibility.AcceptedIffFeasible(input, x.answer.result);
    TargetIsSettled(x.answer.f.c, input, x.answer.result, o);
  }

  /** The route of an open stop in the candidate: a solver route for a target, a base route otherwise. */
  lemma {:induction false} OpenStopComes(x: Turn, j: nat, i: nat) returns (target: bool, q: nat)
    requires x.Ok() && x.Draft().Written? && StopAt(x.Next(), j, i) && x.Next().routes[j].stops[i].status != Completed
    ensures target == (OrderOf(x.Next(), j, i) in TargetsById(x.answer.f.c.targets))
    ensures target ==> Feasibility.OnRoute(x.answer.result.routes, q, OrderOf(x.Next(), j, i)) && x.Draft().rows[j].vehicleId == x.answer.result.routes[q].vehicleId
    ensures !target ==> q < |x.l.routes| && x.Draft().rows[j].vehicleId == x.l.routes[q].vehicleId
                        && OrderOf(x.Next(), j, i) in x.l.routeOf && x.l.routeOf[OrderOf(x.Next(), j, i)] == Some(x.l.routes[q].id)
  {
    var n := RowStopsCome(x, j);
    var row := x.Draft().rows[j];
    assert Comes(x, j, i, n);
    target := row.stops[i].orderId in TargetsById(x.answer.f.c.targets);
    if i < n {
      var r, k :| FromBase(x.answer.f.c, row, i, r, k);
      assert StopAt(x.l, r, k) && Booked(x.l, r, k) && Agrees(x.l, r, k);
      if target { OpenStopIsGivenUp(x.l, x.b, x.scope, x.targets, x.answer.f.c, r, k); }
      q := r;
    } else {
      var s, m :| FromSolver(x.answer.result, row, i, n, s, m);
      NewStopIsOpen(x, s, m);
      q := s;
    }
  }

  /** The open stops of an order are all on one row. */
  lemma {:induction false} OpenStopsShareRow(x: Turn, j: nat, i: nat, q: nat, k: nat)
    requires x.Ok() && x.Draft().Written? && StopAt(x.Next(), j, i) && StopAt(x.Next(), q, k)
    requires OrderOf(x.Next(), j, i) == OrderOf(x.Next(), q, k)
    requires x.Next().routes[j].stops[i].status != Completed && x.Next().routes[q].stops[k].status != Completed
    ensures j == q
  {
    var target, u := OpenStopComes(x, j, i);
    var too, v := OpenStopComes(x, q, k);
    if target { OneSolverRoute(x, u, v, OrderOf(x.Next(), j, i)); }
    RowOfVehicle(x, j, q);
  }

  lemma {:induction false} RowOfVehicle(x: Turn, j: nat, q: nat)
    requires x.Ok() && x.Draft().Written? && j < |x.Draft().rows| && q < |x.Draft().rows|
    requires x.Draft().rows[j].vehicleId == x.Draft().rows[q].vehicleId
    ensures j == q
  {
    NothingIsRepeated(x);
    FinalDraftOk(x.answer.f, x.answer.result, x.answer.first);
  }

  /** The row that the membership names holds the delivery. */
  lemma {:induction false} MembershipDelivers(d: Draft, j: nat, i: nat) returns (q: nat, k: nat)
    requires d.Written? && Tracks(d.rows, d.routeByOrder) && j < |d.rows| && i < |d.rows[j].stops|
    requires LastRowDelivers(d.rows, d.rows[j].stops[i].orderId)
    ensures var o := d.rows[j].stops[i].orderId;
            && o in d.routeByOrder && q < |d.rows| && d.routeByOrder[o] == d.rows[q].id
            && k < |d.rows[q].stops| && d.rows[q].stops[k].orderId == o && d.rows[q].stops[k].kind == Delivery
  {
    var o := d.rows[j].stops[i].orderId;
    assert HasStopOf(d.rows[j], o);
    q :| IsLast(d.rows, q, o) && d.routeByOrder[o] == d.rows[q].id;
    assert Delivers(d.rows[q], o);
    k :| 0 <= k < |d.rows[q].stops| && d.rows[q].stops[k].orderId == o && d.rows[q].stops[k].kind == Delivery;
  }

  lemma {:induction false} RowsAreTracked(x: Turn)
    requires x.Ok() && x.Draft().Written?
    ensures Tracks(x.Draft().rows, x.Draft().routeByOrder)
  {
    NothingIsRepeated(x);
    FinalDraftOk(x.answer.f, x.answer.result, x.answer.first);
  }

  /** An open stop is on the row of its order's membership. */
  lemma {:induction false} MembershipIsRow(x: Turn, j: nat, i: nat)
    requires x.Ok() && x.Draft().Written? && x.Passes() && StopAt(x.Next(), j, i) && x.Next().routes[j].stops[i].status != Completed
    ensures OrderOf(x.Next(), j, i) in x.Next().routeOf && x.Next().routeOf[OrderOf(x.Next(), j, i)] == Some(x.Draft().rows[j].id)
  {
    RowsAreTracked(x);
    StopAgrees(x, j, i);
    var q, k := MembershipDelivers(x.Draft(), j, i);
    StopAgrees(x, q, k);
    OpenStopsShareRow(x, j, i, q, k);
  }

  lemma {:induction false} SurvivorIsIn(x: Turn, r: nat, k: nat) returns (j: nat, i: nat)
    requires x.Ok() && StopAt(x.l, r, k) && Survives(x.l.routes[r].stops[k], LostOf(x.answer.f.c, x.l.routes[r]))
    ensures x.Draft().Written? && StopAt(x.Next(), j, i) && OrderOf(x.Next(), j, i) == OrderOf(x.l, r, k)
    ensures x.Next().routes[j].stops[i].kind == x.l.routes[r].stops[k].kind
  {
    NothingIsRepeated(x);
    j, i := SurvivorIsWritten(x.answer.f, x.answer.result, x.answer.first, r, k);
  }

  lemma {:induction false} SurvivorIsWritten(f: Frame, result: SolverResult, first: Id, r: nat, k: nat) returns (j: nat, i: nat)
    requires FinalDraft(f, result, first).Written? && r < |f.c.routes| && k < |f.c.routes[r].stops|
    requires Survives(f.c.routes[r].stops[k], LostOf(f.c, f.c.routes[r]))
    ensures j < |FinalDraft(f, result, first).rows| && Copied(f.c.routes[r], FinalDraft(f, result, first).rows[j], k, i)
  {
    var base, byVehicle := f.c.routes[r], RoutesByVehicle(result.routes);
    PreservedSurvive(base, TargetsById(f.c.targets).Keys, RebuiltIds(f.c.targets));
    SurvivorAt(base.stops, LostOf(f.c, base), k);
    j := RowExists(f, result, first, r);
    i := SurvivorIsCopied(f, BaseJob(base, byVehicle), FinalDraft(f, result, first).rows[j], base, k);
  }

  lemma {:induction false} NewStopIsIn(x: Turn, s: nat, m: nat) returns (j: nat, i: nat)
    requires x.Ok() && s < |x.answer.result.routes| && m < |x.answer.result.routes[s].stops|
    ensures x.Draft().Written? && StopAt(x.Next(), j, i) && OrderOf(x.Next(), j, i) == x.answer.result.routes[s].stops[m].orderId
  {
    NothingIsRepeated(x);
    j, i := NewStopIsWritten(x.answer.f, x.answer.result, x.answer.first, s, m);
  }

  lemma {:induction false} NewStopIsWritten(f: Frame, result: SolverResult, first: Id, s: nat, m: nat) returns (j: nat, i: nat)
    requires FinalDraft(f, result, first).Written? && DistinctVehicles(result.routes)
    requires s < |result.routes| && m < |result.routes[s].stops|
    ensures j < |FinalDraft(f, result, first).rows| && i < |FinalDraft(f, result, first).rows[j].stops|
    ensures FinalDraft(f, result, first).rows[j].stops[i].orderId == result.routes[s].stops[m].orderId
  {
    var job: Job;
    j, job := SolverRouteIsWritten(f, result, first, s);
    i := |f.Kept(job)| + m;
    FreshAt(f.SpliceOf(job), FinalDraft(f, result, first).rows[j].id, |f.New(job)|, m);
  }

  /** Goods on board keep a stop: the one they have, or a new delivery. */
  lemma {:induction false} OnBoardIsServed(x: Turn, o: Id)
    requires x.Ok() && o in x.l.status && x.l.status[o] in {PickedUp, Delivering}
    ensures x.Draft().Written? && Served(x.Next(), o)
  {
    NothingIsRepeated(x);
    assert Tracked(x.l, o) && Served(x.l, o);
    if o in TargetsById(x.answer.f.c.targets) {
      var s, m := NeedIsServed(x.answer.f.c, x.answer.locations, x.answer.distances, x.answer.durations, x.answer.result, o, Delivery);
      var j, i := NewStopIsIn(x, s, m);
    } else {
      var r, k :| StopAt(x.l, r, k) && OrderOf(x.l, r, k) == o;
      var j, i := SurvivorIsIn(x, r, k);
    }
  }

  lemma {:induction false} ServedHasRow(x: Turn, o: Id)
    requires x.Ok() && x.Draft().Written? && Served(x.Next(), o) && o in x.l.routeOf
    ensures PlanLedger.OnRoute(x.Next(), o)
  {
    NothingIsRepeated(x);
    FinalDraftOk(x.answer.f, x.answer.result, x.answer.first);
    var j, i :| StopAt(x.Next(), j, i) && OrderOf(x.Next(), j, i) == o;
    var q := RowIsTracked(x.Draft(), j, i);
    assert x.Next().routes[q].id == x.Next().routeOf[o].value;
  }

  lemma {:induction false} RowIsTracked(d: Draft, j: int, i: int) returns (q: nat)
    requires d.Written? && Tracks(d.rows, d.routeByOrder) && 0 <= j < |d.rows| && 0 <= i < |d.rows[j].stops|
    ensures d.rows[j].stops[i].orderId in d.routeByOrder && q < |d.rows| && d.routeByOrder[d.rows[j].stops[i].orderId] == d.rows[q].id
  {
    var o := d.rows[j].stops[i].orderId;
    assert HasStopOf(d.rows[j], o);
    q :| IsLast(d.rows, q, o) && d.routeByOrder[o] == d.rows[q].id;
  }

  lemma {:induction false} NextTracks(x: Turn, o: Id)
    requires x.Ok() && x.Draft().Written? && o in x.Next().status
    ensures Tracked(x.Next(), o)
  {
    assert Tracked(x.l, o);
    if x.l.status[o] in {PickedUp, Delivering} {
      OnBoardIsServed(x, o);
      ServedHasRow(x, o);
    }
    if x.l.status[o] == OrderCompleted {
      var r, k :| StopAt(x.l, r, k) && OrderOf(x.l, r, k) == o && x.l.routes[r].stops[k].kind == Delivery;
      assert Booked(x.l, r, k) && Agrees(x.l, r, k);
      var j, i := SurvivorIsIn(x, r, k);
    }
  }

  /** On a solver route nothing of the order comes behind its delivery. */
  lemma {:induction false} SolverDeliveryEnds(x: Turn, s: int, m: int, k: int)
    requires x.Ok() && 0 <= s < |x.answer.result.routes| && 0 <= m < k < |x.answer.result.routes[s].stops|
    requires x.answer.result.routes[s].stops[m].kind == Delivery
    ensures x.answer.result.routes[s].stops[k].orderId != x.answer.result.routes[s].stops[m].orderId
  {
    var c, result := x.answer.f.c, x.answer.result;
    var stops, o := result.routes[s].stops, result.routes[s].stops[m].orderId;
    NewStopIsOpen(x, s, m);
    var input := RecoveryInput(c, x.answer.locations, x.answer.distances, x.answer.durations);
    Feasibility.AcceptedIffFeasible(input, result);
    assert Feasibility.OnRoute(result.routes, s, o);
    var order := TargetIsCarried(c, input, result, o, s);
    CarriedEnds(order, stops, m, k);
  }

  lemma {:induction false} CarriedEnds(order: SolverOrder, stops: seq<SolverStop>, m: int, k: int)
    requires 0 <= m < k < |stops| && stops[m].orderId == order.orderId && stops[m].kind == Delivery
    requires exists vehicle :: Feasibility.Carried(order, vehicle, stops)
    ensures stops[k].orderId != order.orderId
  {
    var vehicle :| Feasibility.Carried(order, vehicle, stops);
  }

  /** Nothing of the order comes behind its delivery on a written row. */
  lemma {:induction false} NextStopDiffers(x: Turn, j: nat, i: nat, k: nat)
    requires x.Ok() && x.Draft().Written? && StopAt(x.Next(), j, k) && i < k && x.Next().routes[j].stops[i].kind == Delivery
    ensures OrderOf(x.Next(), j, k) != OrderOf(x.Next(), j, i)
  {
    NothingIsRepeated(x);
    var n := RowStopsCome(x, j);
    var row, c := x.Draft().rows[j], x.answer.f.c;
    assert Comes(x, j, i, n) && Comes(x, j, k, n);
    if k < n {
      var r, a :| FromBase(c, row, i, r, a);
      var q, b :| FromBase(c, row, k, q, b);
      BaseStopDiffers(x, row, i, k, r, a, q, b);
    } else if i < n {
      var r, a :| FromBase(c, row, i, r, a);
      var s, m :| FromSolver(x.answer.result, row, k, n, s, m);
      assert !Repeats(c, r, a);
      NewStopIsOpen(x, s, m);
    } else {
      var s, m :| FromSolver(x.answer.result, row, i, n, s, m);
      var u, b :| FromSolver(x.answer.result, row, k, n, u, b);
      assert s == u by { assert x.answer.result.routes[s].vehicleId == x.answer.result.routes[u].vehicleId; }
      SolverDeliveryEnds(x, s, m, b);
    }
  }

  lemma {:induction false} BaseStopDiffers(x: Turn, row: Route, i: nat, k: nat, r: int, a: int, q: int, b: int)
    requires x.Ok() && i < k < |row.stops| && FromBase(x.answer.f.c, row, i, r, a) && FromBase(x.answer.f.c, row, k, q, b)
    requires row.stops[i].kind == Delivery && x.answer.f.c.routes == x.l.routes && OneRoutePerVehicle(x.l.routes)
    ensures row.stops[k].orderId != row.stops[i].orderId
  {
    assert r == q by { assert x.l.routes[r].vehicleId == x.l.routes[q].vehicleId; }
    if b <= a { PositionsGrow(x.l.routes[r].stops, LostOf(x.answer.f.c, x.l.routes[r]), b, a); }
    assert DeliveryEnds(x.l.routes[r].stops);
  }

  lemma {:induction false} RowEnds(x: Turn, j: nat)
    requires x.Ok() && x.Draft().Written? && j < |x.Draft().rows|
    ensures DeliveryEnds(x.Next().routes[j].stops)
  {
    var stops := x.Next().routes[j].stops;
    forall i, k | 0 <= i < k < |stops| && stops[i].kind == Delivery ensures stops[k].orderId != stops[i].orderId {
      NextStopDiffers(x, j, i, k);
    }
  }

  lemma {:induction false} NextAgrees(x: Turn, j: nat, i: nat)
    requires x.Ok() && x.Draft().Written? && x.Passes() && StopAt(x.Next(), j, i)
    ensures Booked(x.Next(), j, i) && Agrees(x.Next(), j, i)
  {
    StopAgrees(x, j, i);
    if x.Next().routes[j].stops[i].status != Completed { MembershipIsRow(x, j, i); }
  }

  lemma {:induction false} RowsDiffer(rows: seq<Route>, next: Id)
    requires Spaced(rows, next)
    ensures DistinctRoutes(rows)
  {
  }

  /** The candidate of a recovery that repeats nothing and passes the gate leaves a balanced ledger. */
  lemma {:induction false} NextIsBalanced(x: Turn)
    requires x.Ok() && x.Draft().Written? && x.Passes()
    ensures Balanced(x.Next())
  {
    NothingIsRepeated(x);
    FinalDraftOk(x.answer.f, x.answer.result, x.answer.first);
    RowsDiffer(x.Draft().rows, x.Draft().next);
    forall j, i | StopAt(x.Next(), j, i) ensures Booked(x.Next(), j, i) && Agrees(x.Next(), j, i) {
      NextAgrees(x, j, i);
    }
    forall o | o in x.Next().status ensures Tracked(x.Next(), o) {
      NextTracks(x, o);
    }
    forall j | 0 <= j < |x.Next().routes| ensures DeliveryEnds(x.Next().routes[j].stops) {
      RowEnds(x, j);
    }
  }
}
