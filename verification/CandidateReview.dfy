/** The consistency check of the approval gate, and exactly which candidates pass it. */
module CandidateReview {
  import opened Ordering
  import opened Domain
  import opened Optimization
  import opened Finalizer
  import opened Candidate
  import opened CandidateLaws

  // ----- rows and their bookkeeping -----

  ghost predicate HasStopOf(route: Route, o: Id) {
    exists k :: 0 <= k < |route.stops| && route.stops[k].orderId == o
  }

  predicate Delivers(route: Route, o: Id) {
    exists k :: 0 <= k < |route.stops| && route.stops[k].orderId == o && route.stops[k].kind == Delivery
  }

  /** Row j is the last one with a stop of the order. */
  ghost predicate IsLast(rows: seq<Route>, j: int, o: Id) {
    0 <= j < |rows| && HasStopOf(rows[j], o) && forall k :: j < k < |rows| ==> !HasStopOf(rows[k], o)
  }

  /** Every row owns the ids up to its last stop, and rows own disjoint ranges. */
  ghost predicate OwnsIds(row: Route) {
    forall i :: 0 <= i < |row.stops| ==> row.stops[i].id == row.id + 1 + i
  }

  ghost predicate Spaced(rows: seq<Route>, next: Id) {
    && (forall j :: 0 <= j < |rows| ==> OwnsIds(rows[j]) && rows[j].id + |rows[j].stops| < next)
    && (forall i, j :: 0 <= i < j < |rows| ==> rows[i].id + |rows[i].stops| < rows[j].id)
  }

  /** `route_by_order` names the last row with a stop of the order. */
  ghost predicate Tracks(rows: seq<Route>, routeByOrder: map<Id, Id>) {
    && (forall o :: o in routeByOrder ==> exists j :: IsLast(rows, j, o) && routeByOrder[o] == rows[j].id)
    && (forall j, o :: 0 <= j < |rows| && HasStopOf(rows[j], o) ==> o in routeByOrder)
  }

  /** No two rows share a vehicle, and all are in `seen`. */
  ghost predicate Drive(rows: seq<Route>, seen: set<Id>) {
    (forall j :: 0 <= j < |rows| ==> rows[j].vehicleId in seen) && OneRoutePerVehicle(rows)
  }

  ghost predicate DraftOk(d: Draft, seen: set<Id>) {
    d.Written? ==> Spaced(d.rows, d.next) && Tracks(d.rows, d.routeByOrder) && Drive(d.rows, seen)
  }

  lemma {:induction false} VisitedIs(start: map<Id, Id>, routeId: Id, s: Splice, n: nat, m: nat, o: Id)
    requires n <= |s.preserved| && m <= |s.added| && (0 < m ==> n == |s.preserved|)
    ensures var after := Visited(start, routeId, s, n, m);
            if exists q :: 0 <= q < n + m && OrderAt(s, q) == o then o in after && after[o] == routeId
            else (o in after <==> o in start) && (o in after ==> after[o] == start[o])
    decreases m, n
  {
    if 0 < m {
      VisitedIs(start, routeId, s, n, m - 1, o);
      assert OrderAt(s, n + m - 1) == s.added[m - 1].orderId;
    } else if 0 < n {
      VisitedIs(start, routeId, s, n - 1, 0, o);
      assert OrderAt(s, n - 1) == s.preserved[n - 1].orderId;
    }
  }

  /** What the rest of the proofs need of a written row. */
  ghost predicate RowOf(f: Frame, job: Job, row: Route) {
    && f.SpliceOf(job).Known(|f.New(job)|)
    && row.stops == f.SpliceOf(job).Rows(row.id)
    && row.vehicleId == (if job.base.Some? then job.base.value.vehicleId else if job.solver.Some? then job.solver.value.vehicleId else 0)
  }

  lemma {:induction false} FactOf(vehicles: seq<VehicleFact>, v: Id)
    ensures v in VehicleFactsById(vehicles) ==> VehicleFactsById(vehicles)[v].vehicleId == v
  {
    if vehicles != [] { FactOf(vehicles[..|vehicles| - 1], v); }
  }

  lemma {:induction false} WrittenRow(f: Frame, job: Job, routeId: Id, routeNo: int)
    requires f.Buildable(job)
    ensures f.Row(job, routeId, routeNo).id == routeId && RowOf(f, job, f.Row(job, routeId, routeNo))
    ensures |f.Row(job, routeId, routeNo).stops| == |f.Kept(job)| + |f.New(job)|
  {
    KnownWhenOk(f.SpliceOf(job));
    if job.base == None { FactOf(f.c.vehicles, job.solver.value.vehicleId); }
  }

  lemma {:induction false} StopsOfRow(f: Frame, job: Job, row: Route)
    requires RowOf(f, job, row)
    ensures OwnsIds(row)
    ensures forall o :: HasStopOf(row, o) <==> exists q :: 0 <= q < |f.Kept(job)| + |f.New(job)| && OrderAt(f.SpliceOf(job), q) == o
  {
    var s := f.SpliceOf(job);
    forall q | 0 <= q < |row.stops| ensures row.stops[q].id == row.id + 1 + q && row.stops[q].orderId == OrderAt(s, q) {
      RowAt(s, row.id, q);
    }
    forall o ensures HasStopOf(row, o) <==> exists q :: 0 <= q < |f.Kept(job)| + |f.New(job)| && OrderAt(s, q) == o {
      if q :| 0 <= q < |f.Kept(job)| + |f.New(job)| && OrderAt(s, q) == o {
        assert row.stops[q].orderId == o;
      }
      if k :| 0 <= k < |row.stops| && row.stops[k].orderId == o {
        assert OrderAt(s, k) == o;
      }
    }
  }

  lemma {:induction false} TracksOneMore(rows: seq<Route>, routeByOrder: map<Id, Id>, row: Route, after: map<Id, Id>)
    requires Tracks(rows, routeByOrder)
    requires forall o :: if HasStopOf(row, o) then o in after && after[o] == row.id
                         else (o in after <==> o in routeByOrder) && (o in after ==> after[o] == routeByOrder[o])
    ensures Tracks(rows + [row], after)
  {
    var all := rows + [row];
    forall o | o in after ensures exists j :: IsLast(all, j, o) && after[o] == all[j].id {
      if HasStopOf(row, o) {
        assert IsLast(all, |rows|, o);
      } else {
        var j :| IsLast(rows, j, o) && routeByOrder[o] == rows[j].id;
        assert IsLast(all, j, o);
      }
    }
  }

  function VehicleOfJob(job: Job): Id {
    if job.base.Some? then job.base.value.vehicleId else if job.solver.Some? then job.solver.value.vehicleId else 0
  }

  lemma {:induction false} VisitedByRow(f: Frame, job: Job, row: Route, routeByOrder: map<Id, Id>)
    requires RowOf(f, job, row)
    ensures var s := f.SpliceOf(job); var after := Visited(routeByOrder, row.id, s, |s.preserved|, |s.added|);
            forall o :: if HasStopOf(row, o) then o in after && after[o] == row.id
                        else (o in after <==> o in routeByOrder) && (o in after ==> after[o] == routeByOrder[o])
  {
    var s := f.SpliceOf(job);
    StopsOfRow(f, job, row);
    var after := Visited(routeByOrder, row.id, s, |s.preserved|, |s.added|);
    forall o ensures if HasStopOf(row, o) then o in after && after[o] == row.id
                     else (o in after <==> o in routeByOrder) && (o in after ==> after[o] == routeByOrder[o]) {
      VisitedIs(routeByOrder, row.id, s, |s.preserved|, |s.added|, o);
    }
  }

  lemma {:induction false} SpacedOneMore(rows: seq<Route>, next: Id, row: Route, after: Id)
    requires Spaced(rows, next) && OwnsIds(row) && row.id == next && next + |row.stops| < after
    ensures Spaced(rows + [row], after)
  {
  }

  lemma {:induction false} DriveOneMore(rows: seq<Route>, seen: set<Id>, row: Route)
    requires Drive(rows, seen) && row.vehicleId !in seen
    ensures Drive(rows + [row], seen + {row.vehicleId})
  {
  }

  lemma {:induction false} WriteNextKeepsOk(f: Frame, d: Draft, job: Job, seen: set<Id>)
    requires DraftOk(d, seen) && VehicleOfJob(job) !in seen
    ensures DraftOk(WriteNext(f, d, job), seen + {VehicleOfJob(job)})
  {
    if d.Written? && f.Buildable(job) {
      var row, s := f.Row(job, d.next, |d.rows| + 1), f.SpliceOf(job);
      WrittenRow(f, job, d.next, |d.rows| + 1);
      StopsOfRow(f, job, row);
      var after := Visited(d.routeByOrder, d.next, s, |s.preserved|, |s.added|);
      VisitedByRow(f, job, row, d.routeByOrder);
      TracksOneMore(d.rows, d.routeByOrder, row, after);
      assert WriteNext(f, d, job) == Written(d.rows + [row], after, d.next + f.Size(job));
      SpacedOneMore(d.rows, d.next, row, d.next + f.Size(job));
      DriveOneMore(d.rows, seen, row);
    }
  }

  lemma {:induction false} BaseDraftOk(f: Frame, byVehicle: map<Id, SolverRoute>, first: Id, n: nat)
    requires n <= |f.c.routes| && OneRoutePerVehicle(f.c.routes)
    ensures DraftOk(BaseDraft(f, byVehicle, first, n), BaseVehicles(f.c.routes[..n]))
  {
    if 0 < n {
      BaseDraftOk(f, byVehicle, first, n - 1);
      BaseVehiclesOneMore(f.c.routes, n - 1);
      var job := BaseJob(f.c.routes[n - 1], byVehicle);
      WriteNextKeepsOk(f, BaseDraft(f, byVehicle, first, n - 1), job, BaseVehicles(f.c.routes[..n - 1]));
    }
  }

  ghost function SolverVehicles(routes: seq<SolverRoute>, n: nat): set<Id>
    requires n <= |routes|
  {
    set i | 0 <= i < n :: routes[i].vehicleId
  }

  lemma {:induction false} LeftoverDraftOk(f: Frame, routes: seq<SolverRoute>, base: Draft, n: nat)
    requires n <= |routes| && DraftOk(base, BaseVehicles(f.c.routes))
    requires forall i, j :: 0 <= i < j < |routes| ==> routes[i].vehicleId != routes[j].vehicleId
    ensures DraftOk(LeftoverDraft(f, routes, base, n), BaseVehicles(f.c.routes) + SolverVehicles(routes, n))
  {
    if 0 < n {
      LeftoverDraftOk(f, routes, base, n - 1);
      var v := routes[n - 1].vehicleId;
      assert SolverVehicles(routes, n) == SolverVehicles(routes, n - 1) + {v};
      if v !in BaseVehicles(f.c.routes) {
        WriteNextKeepsOk(f, LeftoverDraft(f, routes, base, n - 1), Job(None, Some(routes[n - 1])),
                         BaseVehicles(f.c.routes) + SolverVehicles(routes, n - 1));
      }
    }
  }

  ghost predicate DistinctVehicles(routes: seq<SolverRoute>) {
    forall i, j :: 0 <= i < j < |routes| ==> routes[i].vehicleId != routes[j].vehicleId
  }

  lemma {:induction false} FinalDraftOk(f: Frame, result: SolverResult, first: Id)
    requires OneRoutePerVehicle(f.c.routes) && DistinctVehicles(result.routes)
    ensures DraftOk(FinalDraft(f, result, first), BaseVehicles(f.c.routes) + SolverVehicles(result.routes, |result.routes|))
  {
    BaseDraftOk(f, RoutesByVehicle(result.routes), first, |f.c.routes|);
    assert f.c.routes[..|f.c.routes|] == f.c.routes;
    LeftoverDraftOk(f, result.routes, BaseDraft(f, RoutesByVehicle(result.routes), first, |f.c.routes|), |result.routes|);
  }

  // ----- the gate -----

  function RowsById(rows: seq<Route>): map<Id, Route> {
    if rows == [] then map[] else RowsById(rows[..|rows| - 1])[rows[|rows| - 1].id := rows[|rows| - 1]]
  }

  function MemberOrders(rows: seq<Membership>): set<Id> {
    set i | 0 <= i < |rows| :: rows[i].orderId
  }

  function BaseOrders(members: seq<Member>): set<Id> {
    set i | 0 <= i < |members| :: members[i].orderId
  }

  /** An assigned order has its delivery on the route it is assigned to. */
  predicate AssignmentHolds(routes: map<Id, Route>, m: Membership) {
    m.OnRouteRow? ==> m.routeId in routes && Delivers(routes[m.routeId], m.orderId)
  }

  /** The snapshot check of `_lock_reviewable`. */
  predicate Consistent(candidate: FullPlan, base: seq<Member>) {
    && AssignedCount(candidate.members) == candidate.row.assignedCount
    && UnassignedCount(candidate.members) == candidate.row.unassignedCount
    && MemberOrders(candidate.members) == BaseOrders(base)
    && |candidate.routes| == candidate.row.vehicleCount
    && candidate.row.distance == SumDistance(candidate.routes)
    && candidate.row.duration == SumDuration(candidate.routes)
    && forall i :: 0 <= i < |candidate.members| ==> AssignmentHolds(RowsById(candidate.routes), candidate.members[i])
  }

  lemma {:induction false} RowsByIdIs(rows: seq<Route>, next: Id, j: nat)
    requires Spaced(rows, next) && j < |rows|
    ensures rows[j].id in RowsById(rows) && RowsById(rows)[rows[j].id] == rows[j]
  {
    if j < |rows| - 1 {
      var front := rows[..|rows| - 1];
      assert Spaced(front, next);
      RowsByIdIs(front, next, j);
    }
  }

  lemma {:induction false} MembershipRowAt(routeByOrder: map<Id, Id>, reasons: map<Id, nat>, members: seq<Member>, n: nat, i: nat)
    requires i < n <= |members| && MembersOk(routeByOrder, reasons, members, n)
    ensures MembershipRows(routeByOrder, reasons, members, n)[i] == MembershipRow(routeByOrder, reasons, members[i])
  {
    if i < n - 1 { MembershipRowAt(routeByOrder, reasons, members, n - 1, i); }
  }

  /** The last written row with a stop of the order also holds its delivery. */
  ghost predicate LastRowDelivers(rows: seq<Route>, o: Id) {
    forall j :: IsLast(rows, j, o) ==> Delivers(rows[j], o)
  }

  lemma {:induction false} OnlyOneLast(rows: seq<Route>, i: int, j: int, o: Id)
    requires IsLast(rows, i, o) && IsLast(rows, j, o)
    ensures i == j
  {
  }

  lemma {:induction false} AssignmentHoldsIff(d: Draft, seen: set<Id>, reasons: map<Id, nat>, member: Member)
    requires DraftOk(d, seen) && d.Written? && MemberOk(d.routeByOrder, reasons, member)
    ensures AssignmentHolds(RowsById(d.rows), MembershipRow(d.routeByOrder, reasons, member)) <==> LastRowDelivers(d.rows, member.orderId)
  {
    var o := member.orderId;
    if o in d.routeByOrder {
      var j :| IsLast(d.rows, j, o) && d.routeByOrder[o] == d.rows[j].id;
      RowsByIdIs(d.rows, d.next, j);
      forall i | IsLast(d.rows, i, o) ensures i == j {
        OnlyOneLast(d.rows, i, j, o);
      }
    }
  }

  lemma {:induction false} SameOrders(routeByOrder: map<Id, Id>, reasons: map<Id, nat>, members: seq<Member>)
    requires MembersOk(routeByOrder, reasons, members, |members|)
    ensures MemberOrders(MembershipRows(routeByOrder, reasons, members, |members|)) == BaseOrders(members)
  {
    var rows := MembershipRows(routeByOrder, reasons, members, |members|);
    forall i | 0 <= i < |members| ensures rows[i].orderId == members[i].orderId {
      MembershipRowAt(routeByOrder, reasons, members, |members|, i);
    }
    assert forall o :: o in MemberOrders(rows) ==> o in BaseOrders(members);
    forall o | o in BaseOrders(members) ensures o in MemberOrders(rows) {
      var i :| 0 <= i < |members| && members[i].orderId == o;
      assert rows[i].orderId == o;
    }
  }

  /** Everything `_create_candidate` stores agrees with itself, so a candidate passes the gate
      exactly when, for every order of the base plan, the last row written with a stop of the
      order also holds its delivery. */
  lemma {:induction false} PassesTheGateIff(f: Frame, result: SolverResult, version: nat, first: Id)
    requires OneRoutePerVehicle(f.c.routes) && DistinctVehicles(result.routes)
    requires CandidateOf(f, result, version, first).Some?
    ensures var candidate := CandidateOf(f, result, version, first).value;
            Consistent(candidate, f.c.members)
            <==> forall i :: 0 <= i < |f.c.members| ==> LastRowDelivers(candidate.routes, f.c.members[i].orderId)
  {
    var d, reasons := FinalDraft(f, result, first), ReasonByOrder(result.unassigned);
    var candidate := CandidateOf(f, result, version, first).value;
    FinalDraftOk(f, result, first);
    SameOrders(d.routeByOrder, reasons, f.c.members);
    forall i | 0 <= i < |f.c.members|
      ensures AssignmentHolds(RowsById(candidate.routes), candidate.members[i])
              <==> LastRowDelivers(candidate.routes, f.c.members[i].orderId)
    {
      MembershipRowAt(d.routeByOrder, reasons, f.c.members, |f.c.members|, i);
      AssignmentHoldsIff(d, BaseVehicles(f.c.routes) + SolverVehicles(result.routes, |result.routes|), reasons, f.c.members[i]);
    }
  }

  // ----- the condition before anything is written -----

  /** The base routes that are written, in their order. */
  function BaseJobs(f: Frame, byVehicle: map<Id, SolverRoute>, n: nat): seq<Job>
    requires n <= |f.c.routes|
  {
    if n == 0 then []
    else
      var job := BaseJob(f.c.routes[n - 1], byVehicle);
      BaseJobs(f, byVehicle, n - 1) + if f.Skipped(job) then [] else [job]
  }

  /** The solver routes of vehicles without a base route. */
  function LeftoverJobs(f: Frame, routes: seq<SolverRoute>, n: nat): seq<Job>
    requires n <= |routes|
  {
    if n == 0 then []
    else LeftoverJobs(f, routes, n - 1)
         + if routes[n - 1].vehicleId in BaseVehicles(f.c.routes) then [] else [Job(None, Some(routes[n - 1]))]
  }

  /** All routes of the candidate, in the order they are written. */
  function Jobs(f: Frame, result: SolverResult): seq<Job> {
    BaseJobs(f, RoutesByVehicle(result.routes), |f.c.routes|) + LeftoverJobs(f, result.routes, |result.routes|)
  }

  ghost predicate RowsOfJobs(f: Frame, d: Draft, jobs: seq<Job>) {
    d.Written? ==> |d.rows| == |jobs| && forall j :: 0 <= j < |jobs| ==> RowOf(f, jobs[j], d.rows[j])
  }

  lemma {:induction false} NextRowOfJob(f: Frame, d: Draft, jobs: seq<Job>, job: Job)
    requires RowsOfJobs(f, d, jobs)
    ensures RowsOfJobs(f, WriteNext(f, d, job), jobs + [job])
  {
    if d.Written? && f.Buildable(job) { WrittenRow(f, job, d.next, |d.rows| + 1); }
  }

  lemma {:induction false} BaseRowsOfJobs(f: Frame, byVehicle: map<Id, SolverRoute>, first: Id, n: nat)
    requires n <= |f.c.routes|
    ensures RowsOfJobs(f, BaseDraft(f, byVehicle, first, n), BaseJobs(f, byVehicle, n))
  {
    if 0 < n {
      BaseRowsOfJobs(f, byVehicle, first, n - 1);
      var jobs := BaseJobs(f, byVehicle, n - 1);
      assert jobs + [] == jobs;
      NextRowOfJob(f, BaseDraft(f, byVehicle, first, n - 1), jobs, BaseJob(f.c.routes[n - 1], byVehicle));
    }
  }

  lemma {:induction false} LeftoverRowsOfJobs(f: Frame, routes: seq<SolverRoute>, base: Draft, jobs: seq<Job>, n: nat)
    requires n <= |routes| && RowsOfJobs(f, base, jobs)
    ensures RowsOfJobs(f, LeftoverDraft(f, routes, base, n), jobs + LeftoverJobs(f, routes, n))
  {
    if n == 0 {
      assert jobs + [] == jobs;
    } else {
      LeftoverRowsOfJobs(f, routes, base, jobs, n - 1);
      var before, job := LeftoverJobs(f, routes, n - 1), Job(None, Some(routes[n - 1]));
      assert before + [] == before && jobs + (before + [job]) == jobs + before + [job];
      NextRowOfJob(f, LeftoverDraft(f, routes, base, n - 1), jobs + before, job);
    }
  }

  /** The route keeps or gets a stop of the order. */
  predicate Touches(f: Frame, job: Job, o: Id) {
    || (exists i :: 0 <= i < |f.Kept(job)| && f.Kept(job)[i].orderId == o)
    || (exists m :: 0 <= m < |f.New(job)| && f.New(job)[m].orderId == o)
  }

  /** It keeps or gets its delivery. */
  predicate Serves(f: Frame, job: Job, o: Id) {
    || (exists i :: 0 <= i < |f.Kept(job)| && f.Kept(job)[i].orderId == o && f.Kept(job)[i].kind == Delivery)
    || (exists m :: 0 <= m < |f.New(job)| && f.New(job)[m].orderId == o && f.New(job)[m].kind == Delivery)
  }

  predicate TouchedLast(f: Frame, jobs: seq<Job>, j: int, o: Id) {
    0 <= j < |jobs| && Touches(f, jobs[j], o) && forall k :: j < k < |jobs| ==> !Touches(f, jobs[k], o)
  }

  /** No route after the one that serves the order touches it. */
  predicate ServedLast(f: Frame, jobs: seq<Job>, o: Id) {
    forall j :: 0 <= j < |jobs| && TouchedLast(f, jobs, j, o) ==> Serves(f, jobs[j], o)
  }

  lemma {:induction false} RowTouches(f: Frame, job: Job, row: Route, o: Id)
    requires RowOf(f, job, row)
    ensures HasStopOf(row, o) <==> Touches(f, job, o)
    ensures Delivers(row, o) <==> Serves(f, job, o)
  {
    RowShows(f, job, row);
    ShowsTouches(f, job, row, o);
  }

  /** Row stop q has the order and kind of the kept or new stop it was written for. */
  ghost predicate Shows(kept: seq<Stop>, added: seq<SolverStop>, rows: seq<Stop>) {
    && |rows| == |kept| + |added|
    && (forall i :: 0 <= i < |kept| ==> rows[i].orderId == kept[i].orderId && rows[i].kind == kept[i].kind)
    && (forall m :: 0 <= m < |added| ==> rows[|kept| + m].orderId == added[m].orderId && rows[|kept| + m].kind == added[m].kind)
  }

  lemma {:induction false} RowShows(f: Frame, job: Job, row: Route)
    requires RowOf(f, job, row)
    ensures Shows(f.Kept(job), f.New(job), row.stops)
  {
    var s := f.SpliceOf(job);
    forall i | 0 <= i < |s.preserved| ensures row.stops[i].orderId == s.preserved[i].orderId && row.stops[i].kind == s.preserved[i].kind {
      RowAt(s, row.id, i);
    }
    forall m | 0 <= m < |s.added|
      ensures row.stops[|s.preserved| + m].orderId == s.added[m].orderId && row.stops[|s.preserved| + m].kind == s.added[m].kind
    {
      RowAt(s, row.id, |s.preserved| + m);
    }
  }

  lemma {:induction false} ShowsTouches(f: Frame, job: Job, row: Route, o: Id)
    requires Shows(f.Kept(job), f.New(job), row.stops)
    ensures HasStopOf(row, o) <==> Touches(f, job, o)
    ensures Delivers(row, o) <==> Serves(f, job, o)
  {
    var kept, added := f.Kept(job), f.New(job);
    if k :| 0 <= k < |row.stops| && row.stops[k].orderId == o {
      assert |kept| <= k ==> added[k - |kept|].orderId == o;
    }
    if k :| 0 <= k < |row.stops| && row.stops[k].orderId == o && row.stops[k].kind == Delivery {
      assert |kept| <= k ==> added[k - |kept|].orderId == o && added[k - |kept|].kind == Delivery;
    }
    if i :| 0 <= i < |kept| && kept[i].orderId == o { assert row.stops[i].orderId == o; }
    if m :| 0 <= m < |added| && added[m].orderId == o { assert row.stops[|kept| + m].orderId == o; }
    if m :| 0 <= m < |added| && added[m].orderId == o && added[m].kind == Delivery { assert row.stops[|kept| + m].orderId == o; }
  }

  lemma {:induction false} LastRowIsLastJob(f: Frame, rows: seq<Route>, jobs: seq<Job>, o: Id)
    requires |rows| == |jobs| && forall j :: 0 <= j < |jobs| ==> RowOf(f, jobs[j], rows[j])
    ensures LastRowDelivers(rows, o) <==> ServedLast(f, jobs, o)
  {
    forall j | 0 <= j < |jobs|
      ensures HasStopOf(rows[j], o) <==> Touches(f, jobs[j], o)
      ensures Delivers(rows[j], o) <==> Serves(f, jobs[j], o)
    {
      RowTouches(f, jobs[j], rows[j], o);
    }
    forall j | 0 <= j < |jobs| ensures IsLast(rows, j, o) <==> TouchedLast(f, jobs, j, o) {
    }
  }

  /** The gate's verdict can be told from the context and the solver result alone: it passes exactly
      when, for every order of the base plan, no route written after the one that serves the order
      keeps or gets another stop of it. */
  lemma {:induction false} GateVerdictIsForeseeable(f: Frame, result: SolverResult, version: nat, first: Id)
    requires OneRoutePerVehicle(f.c.routes) && DistinctVehicles(result.routes)
    requires CandidateOf(f, result, version, first).Some?
    ensures Consistent(CandidateOf(f, result, version, first).value, f.c.members)
            <==> forall i :: 0 <= i < |f.c.members| ==> ServedLast(f, Jobs(f, result), f.c.members[i].orderId)
  {
    var d := FinalDraft(f, result, first);
    PassesTheGateIff(f, result, version, first);
    BaseRowsOfJobs(f, RoutesByVehicle(result.routes), first, |f.c.routes|);
    LeftoverRowsOfJobs(f, result.routes, BaseDraft(f, RoutesByVehicle(result.routes), first, |f.c.routes|),
                       BaseJobs(f, RoutesByVehicle(result.routes), |f.c.routes|), |result.routes|);
    forall i | 0 <= i < |f.c.members|
      ensures LastRowDelivers(d.rows, f.c.members[i].orderId) <==> ServedLast(f, Jobs(f, result), f.c.members[i].orderId)
    {
      LastRowIsLastJob(f, d.rows, Jobs(f, result), f.c.members[i].orderId);
    }
  }
}
