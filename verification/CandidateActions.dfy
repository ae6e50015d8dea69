/** Which actions a candidate does, when it does one twice, and that its rows are sound. */
module CandidateActions {
  import opened Ordering
  import opened Domain
  import opened Optimization
  import opened Checker
  import opened Feasibility
  import opened Finalizer
  import opened FinalizedPlan
  import opened Candidate
  import opened CandidateLaws
  import opened CandidateReview
  import opened Comparison
  import opened RecoveryHistory

  // ----- where an action of a candidate comes from -----

  function NewKey(incidentId: Id, stop: SolverStop): Key {
    Key(stop.orderId, stop.kind, if stop.kind == Handover then Some(incidentId) else None)
  }

  function LostOf(c: Recovery, base: Route): set<Id> {
    Lost(base, TargetsById(c.targets).Keys, RebuiltIds(c.targets))
  }

  /** Base stop b of route r survives on vehicle v. */
  ghost predicate KeptAt(c: Recovery, r: int, b: int, v: Id, key: Key) {
    && 0 <= r < |c.routes| && 0 <= b < |c.routes[r].stops| && c.routes[r].vehicleId == v
    && Survives(c.routes[r].stops[b], LostOf(c, c.routes[r])) && KeyOf(c.routes[r].stops[b]) == key
  }

  /** Stop m of solver route s is new on vehicle v. */
  ghost predicate NewAt(c: Recovery, routes: seq<SolverRoute>, s: int, m: int, v: Id, key: Key) {
    0 <= s < |routes| && 0 <= m < |routes[s].stops| && routes[s].vehicleId == v && NewKey(c.incidentId, routes[s].stops[m]) == key
  }

  ghost predicate ComesFrom(c: Recovery, routes: seq<SolverRoute>, v: Id, key: Key) {
    (exists r, b :: KeptAt(c, r, b, v, key)) || (exists s, m :: NewAt(c, routes, s, m, v, key))
  }

  // ----- what keeps the actions apart -----

  ghost predicate SameAction(routes: seq<Route>, r: int, b: int, q: int, d: int) {
    && 0 <= r < |routes| && 0 <= b < |routes[r].stops| && 0 <= q < |routes| && 0 <= d < |routes[q].stops|
    && KeyOf(routes[r].stops[b]) == KeyOf(routes[q].stops[d])
  }

  /** No two base stops share an action. */
  ghost predicate BaseOnce(routes: seq<Route>) {
    forall r, b, q, d :: SameAction(routes, r, b, q, d) ==> r == q && b == d
  }

  lemma {:induction false} OffsetGrows(routes: seq<Route>, r: nat, q: nat)
    requires r < q <= |routes|
    ensures Offset(routes, r) + |routes[r].stops| <= Offset(routes, q)
    decreases q
  {
    assert routes[..q][..q - 1] == routes[..q - 1];
    OnVehicleLength(routes[q - 1].stops, routes[q - 1].vehicleId);
    if r < q - 1 { OffsetGrows(routes, r, q - 1); }
  }

  lemma {:induction false} OnVehicleLength(stops: seq<Stop>, v: Id)
    ensures |OnVehicle(stops, v)| == |stops|
  {
    if stops != [] { OnVehicleLength(stops[..|stops| - 1], v); }
  }

  lemma {:induction false} DistinctActionsAreOnce(routes: seq<Route>)
    requires DistinctKeys(Actions(routes))
    ensures BaseOnce(routes)
  {
    forall r, b, q, d | SameAction(routes, r, b, q, d) ensures r == q && b == d {
      ActionAt(routes, r, b);
      ActionAt(routes, q, d);
      assert Offset(routes, r) + b == Offset(routes, q) + d;
      if r < q { OffsetGrows(routes, r, q); }
      if q < r { OffsetGrows(routes, q, r); }
    }
  }

  /** The kinds of stops a target still needs. */
  predicate Needs(t: Target, kind: StopKind) {
    kind == Delivery || (kind == Handover && t.handover.Some?) || (kind == Pickup && t.handover == None && t.requiredVehicle == None)
  }

  ghost predicate SameNeed(routes: seq<SolverRoute>, s: int, m: int, u: int, n: int) {
    && 0 <= s < |routes| && 0 <= m < |routes[s].stops| && 0 <= u < |routes| && 0 <= n < |routes[u].stops|
    && routes[s].stops[m].orderId == routes[u].stops[n].orderId && routes[s].stops[m].kind == routes[u].stops[n].kind
  }

  /** New stops serve what their targets need, each need once. */
  ghost predicate ServesNeeds(c: Recovery, routes: seq<SolverRoute>) {
    && (forall s, m :: 0 <= s < |routes| && 0 <= m < |routes[s].stops| ==> NeedAt(TargetsById(c.targets), routes[s].stops[m]))
    && (forall s, m, u, n :: SameNeed(routes, s, m, u, n) ==> s == u && m == n)
  }

  ghost predicate NeedAt(targets: map<Id, Target>, stop: SolverStop) {
    stop.orderId in targets && Needs(targets[stop.orderId], stop.kind)
  }

  /** Base stop b of route r survives although its order needs such a stop again. */
  predicate Repeats(c: Recovery, r: int, b: int) {
    && 0 <= r < |c.routes| && 0 <= b < |c.routes[r].stops|
    && var stop, targets := c.routes[r].stops[b], TargetsById(c.targets);
       && Survives(stop, LostOf(c, c.routes[r]))
       && stop.orderId in targets && Needs(targets[stop.orderId], stop.kind)
       && (stop.kind == Handover ==> stop.incident == Some(c.incidentId))
  }

  ghost predicate NothingRepeats(c: Recovery) {
    forall r, b :: !Repeats(c, r, b)
  }

  lemma {:induction false} KeptIsNotNew(c: Recovery, routes: seq<SolverRoute>, r: int, b: int, s: int, m: int, u: Id, v: Id, key: Key)
    requires NothingRepeats(c) && ServesNeeds(c, routes) && KeptAt(c, r, b, u, key)
    ensures !NewAt(c, routes, s, m, v, key)
  {
    assert !Repeats(c, r, b);
    assert 0 <= s < |routes| && 0 <= m < |routes[s].stops| ==> NeedAt(TargetsById(c.targets), routes[s].stops[m]);
  }

  /** An action belongs to one vehicle. */
  lemma {:induction false} OneVehiclePerAction(c: Recovery, routes: seq<SolverRoute>, u: Id, v: Id, key: Key)
    requires BaseOnce(c.routes) && NothingRepeats(c) && ServesNeeds(c, routes)
    requires ComesFrom(c, routes, u, key) && ComesFrom(c, routes, v, key)
    ensures u == v
  {
    if r, b :| KeptAt(c, r, b, u, key) {
      forall s, m ensures !NewAt(c, routes, s, m, v, key) {
        KeptIsNotNew(c, routes, r, b, s, m, u, v, key);
      }
      var q, d :| KeptAt(c, q, d, v, key);
      assert SameAction(c.routes, r, b, q, d);
    } else {
      var s, m :| NewAt(c, routes, s, m, u, key);
      forall r, b ensures !KeptAt(c, r, b, v, key) {
        if KeptAt(c, r, b, v, key) { KeptIsNotNew(c, routes, r, b, s, m, v, u, key); }
      }
      var t, n :| NewAt(c, routes, t, n, v, key);
      assert SameNeed(routes, s, m, t, n);
    }
  }

  lemma {:induction false} OtherVehicleOtherAction(c: Recovery, routes: seq<SolverRoute>, u: Id, v: Id, key: Key, other: Key)
    requires BaseOnce(c.routes) && NothingRepeats(c) && ServesNeeds(c, routes)
    requires ComesFrom(c, routes, u, key) && ComesFrom(c, routes, v, other) && u != v
    ensures key != other
  {
    if key == other { OneVehiclePerAction(c, routes, u, v, key); }
  }

  // ----- the actions of one row -----

  ghost predicate JobOf(c: Recovery, routes: seq<SolverRoute>, job: Job, v: Id) {
    && (job.base.Some? ==> job.base.value in c.routes && job.base.value.vehicleId == v)
    && (job.solver.Some? ==> job.solver.value in routes && job.solver.value.vehicleId == v)
    && (job.base.Some? || job.solver.Some?)
  }

  lemma {:induction false} KeptKey(f: Frame, job: Job, row: Route, i: nat) returns (b: nat)
    requires RowOf(f, job, row) && i < |f.Kept(job)| && job.base.Some?
    ensures KeyOf(row.stops[i]) == KeyOf(f.Kept(job)[i])
    ensures b < |job.base.value.stops| && job.base.value.stops[b] == f.Kept(job)[i]
    ensures Survives(job.base.value.stops[b], LostOf(f.c, job.base.value))
    ensures i == Position(job.base.value.stops, LostOf(f.c, job.base.value), b)
  {
    CopyAt(f.Kept(job), row.id, |f.Kept(job)|, i);
    PreservedSurvive(job.base.value, TargetsById(f.c.targets).Keys, RebuiltIds(f.c.targets));
    b := SurvivorFrom(job.base.value.stops, LostOf(f.c, job.base.value), i);
  }

  lemma {:induction false} FreshKey(f: Frame, job: Job, row: Route, m: nat)
    requires RowOf(f, job, row) && m < |f.New(job)|
    ensures KeyOf(row.stops[|f.Kept(job)| + m]) == NewKey(f.c.incidentId, f.New(job)[m])
  {
    FreshAt(f.SpliceOf(job), row.id, |f.New(job)|, m);
  }

  lemma {:induction false} RowKeyComesFrom(f: Frame, routes: seq<SolverRoute>, job: Job, row: Route, v: Id, i: nat)
    requires RowOf(f, job, row) && JobOf(f.c, routes, job, v) && i < |row.stops|
    ensures ComesFrom(f.c, routes, v, KeyOf(row.stops[i]))
  {
    if i < |f.Kept(job)| {
      var b := KeptKey(f, job, row, i);
      var r :| 0 <= r < |f.c.routes| && f.c.routes[r] == job.base.value;
      assert KeptAt(f.c, r, b, v, KeyOf(row.stops[i]));
    } else {
      FreshKey(f, job, row, i - |f.Kept(job)|);
      var s :| 0 <= s < |routes| && routes[s] == job.solver.value;
      assert NewAt(f.c, routes, s, i - |f.Kept(job)|, v, KeyOf(row.stops[i]));
    }
  }

  lemma {:induction false} RowKeysDiffer(f: Frame, routes: seq<SolverRoute>, job: Job, row: Route, v: Id, i: nat, k: nat)
    requires BaseOnce(f.c.routes) && NothingRepeats(f.c) && ServesNeeds(f.c, routes)
    requires RowOf(f, job, row) && JobOf(f.c, routes, job, v) && i < k < |row.stops|
    ensures KeyOf(row.stops[i]) != KeyOf(row.stops[k])
  {
    var n := |f.Kept(job)|;
    if i < n {
      var b := KeptKey(f, job, row, i);
      var r :| 0 <= r < |f.c.routes| && f.c.routes[r] == job.base.value;
      assert KeptAt(f.c, r, b, v, KeyOf(row.stops[i]));
      if k < n {
        var d := KeptKey(f, job, row, k);
        assert b != d && !SameAction(f.c.routes, r, b, r, d);
      } else {
        FreshKey(f, job, row, k - n);
        var s :| 0 <= s < |routes| && routes[s] == job.solver.value;
        KeptIsNotNew(f.c, routes, r, b, s, k - n, v, v, KeyOf(row.stops[i]));
      }
    } else {
      FreshKey(f, job, row, i - n);
      FreshKey(f, job, row, k - n);
      var s :| 0 <= s < |routes| && routes[s] == job.solver.value;
      assert !SameNeed(routes, s, i - n, s, k - n);
    }
  }

  // ----- row by row -----

  /** The rows written so far do nothing twice, and only what their vehicles do. */
  ghost predicate Once(f: Frame, routes: seq<SolverRoute>, d: Draft, seen: set<Id>) {
    d.Written? ==>
      && DistinctKeys(Actions(d.rows))
      && forall q :: 0 <= q < |Actions(d.rows)| ==> ByVehicle(f.c, routes, seen, KeyOf(Actions(d.rows)[q].stop))
  }

  ghost predicate ByVehicle(c: Recovery, routes: seq<SolverRoute>, seen: set<Id>, key: Key) {
    exists v :: v in seen && ComesFrom(c, routes, v, key)
  }

  lemma {:induction false} ActionsSnoc(rows: seq<Route>, row: Route)
    ensures Actions(rows + [row]) == Actions(rows) + OnVehicle(row.stops, row.vehicleId)
  {
    assert (rows + [row])[..|rows|] == rows;
  }

  lemma {:induction false} NextRowKey(f: Frame, routes: seq<SolverRoute>, job: Job, row: Route, v: Id, i: nat)
    requires RowOf(f, job, row) && JobOf(f.c, routes, job, v) && i < |row.stops|
    ensures |OnVehicle(row.stops, row.vehicleId)| == |row.stops|
    ensures OnVehicle(row.stops, row.vehicleId)[i].stop == row.stops[i]
    ensures ComesFrom(f.c, routes, v, KeyOf(row.stops[i]))
  {
    OnVehicleLength(row.stops, row.vehicleId);
    OnVehicleAt(row.stops, row.vehicleId, i);
    RowKeyComesFrom(f, routes, job, row, v, i);
  }

  /** The new row only does what its vehicle does. */
  lemma {:induction false} NextRowByVehicle(f: Frame, routes: seq<SolverRoute>, rows: seq<Route>, seen: set<Id>, job: Job, row: Route, v: Id, q: nat)
    requires RowOf(f, job, row) && JobOf(f.c, routes, job, v) && q < |Actions(rows + [row])|
    requires q < |Actions(rows)| ==> ByVehicle(f.c, routes, seen, KeyOf(Actions(rows)[q].stop))
    ensures ByVehicle(f.c, routes, seen + {v}, KeyOf(Actions(rows + [row])[q].stop))
  {
    ActionsSnoc(rows, row);
    OnVehicleLength(row.stops, row.vehicleId);
    if q < |Actions(rows)| {
      var u :| u in seen && ComesFrom(f.c, routes, u, KeyOf(Actions(rows)[q].stop));
      assert u in seen + {v};
    } else {
      NextRowKey(f, routes, job, row, v, q - |Actions(rows)|);
      assert v in seen + {v};
    }
  }

  lemma {:induction false} EarlierKeyDiffers(c: Recovery, routes: seq<SolverRoute>, seen: set<Id>, v: Id, earlier: Key, key: Key)
    requires BaseOnce(c.routes) && NothingRepeats(c) && ServesNeeds(c, routes)
    requires ByVehicle(c, routes, seen, earlier) && ComesFrom(c, routes, v, key) && v !in seen
    ensures earlier != key
  {
    var u :| u in seen && ComesFrom(c, routes, u, earlier);
    OtherVehicleOtherAction(c, routes, u, v, earlier, key);
  }

  lemma {:induction false} NextRowDiffers(f: Frame, routes: seq<SolverRoute>, rows: seq<Route>, seen: set<Id>, job: Job, row: Route, v: Id, p: nat, q: nat)
    requires BaseOnce(f.c.routes) && NothingRepeats(f.c) && ServesNeeds(f.c, routes)
    requires RowOf(f, job, row) && JobOf(f.c, routes, job, v) && v !in seen
    requires p < q < |Actions(rows + [row])| && DistinctKeys(Actions(rows))
    requires p < |Actions(rows)| ==> ByVehicle(f.c, routes, seen, KeyOf(Actions(rows)[p].stop))
    ensures KeyOf(Actions(rows + [row])[p].stop) != KeyOf(Actions(rows + [row])[q].stop)
  {
    ActionsSnoc(rows, row);
    OnVehicleLength(row.stops, row.vehicleId);
    var n := |Actions(rows)|;
    if n <= q {
      NextRowKey(f, routes, job, row, v, q - n);
      if p < n {
        EarlierKeyDiffers(f.c, routes, seen, v, KeyOf(Actions(rows)[p].stop), KeyOf(row.stops[q - n]));
      } else {
        OnVehicleAt(row.stops, row.vehicleId, p - n);
        RowKeysDiffer(f, routes, job, row, v, p - n, q - n);
      }
    }
  }

  lemma {:induction false} NextRowOnce(f: Frame, routes: seq<SolverRoute>, rows: seq<Route>, seen: set<Id>, job: Job, row: Route, v: Id)
    requires BaseOnce(f.c.routes) && NothingRepeats(f.c) && ServesNeeds(f.c, routes)
    requires RowOf(f, job, row) && JobOf(f.c, routes, job, v) && v !in seen
    requires DistinctKeys(Actions(rows))
    requires forall q :: 0 <= q < |Actions(rows)| ==> ByVehicle(f.c, routes, seen, KeyOf(Actions(rows)[q].stop))
    ensures DistinctKeys(Actions(rows + [row]))
    ensures forall q :: 0 <= q < |Actions(rows + [row])| ==> ByVehicle(f.c, routes, seen + {v}, KeyOf(Actions(rows + [row])[q].stop))
  {
    var all := Actions(rows + [row]);
    forall q | 0 <= q < |all| ensures ByVehicle(f.c, routes, seen + {v}, KeyOf(all[q].stop)) {
      NextRowByVehicle(f, routes, rows, seen, job, row, v, q);
    }
    forall p, q | 0 <= p < q < |all| ensures KeyOf(all[p].stop) != KeyOf(all[q].stop) {
      NextRowDiffers(f, routes, rows, seen, job, row, v, p, q);
    }
  }

  lemma {:induction false} WriteNextOnce(f: Frame, routes: seq<SolverRoute>, d: Draft, seen: set<Id>, job: Job, v: Id)
    requires BaseOnce(f.c.routes) && NothingRepeats(f.c) && ServesNeeds(f.c, routes)
    requires Once(f, routes, d, seen) && JobOf(f.c, routes, job, v) && v !in seen
    ensures Once(f, routes, WriteNext(f, d, job), seen + {v})
  {
    if d.Written? && f.Buildable(job) {
      var row := f.Row(job, d.next, |d.rows| + 1);
      WrittenRow(f, job, d.next, |d.rows| + 1);
      NextRowOnce(f, routes, d.rows, seen, job, row, v);
    }
  }

  lemma {:induction false} ByVehicleGrows(c: Recovery, routes: seq<SolverRoute>, seen: set<Id>, v: Id, key: Key)
    requires ByVehicle(c, routes, seen, key)
    ensures ByVehicle(c, routes, seen + {v}, key)
  {
    var u :| u in seen && ComesFrom(c, routes, u, key);
    assert u in seen + {v};
  }

  lemma {:induction false} OnceGrows(f: Frame, routes: seq<SolverRoute>, d: Draft, seen: set<Id>, v: Id)
    requires Once(f, routes, d, seen)
    ensures Once(f, routes, d, seen + {v})
  {
    if d.Written? {
      forall q | 0 <= q < |Actions(d.rows)| ensures ByVehicle(f.c, routes, seen + {v}, KeyOf(Actions(d.rows)[q].stop)) {
        ByVehicleGrows(f.c, routes, seen, v, KeyOf(Actions(d.rows)[q].stop));
      }
    }
  }

  lemma {:induction false} NextBaseOnce(f: Frame, routes: seq<SolverRoute>, d: Draft, seen: set<Id>, base: Route)
    requires BaseOnce(f.c.routes) && NothingRepeats(f.c) && ServesNeeds(f.c, routes)
    requires Once(f, routes, d, seen) && base in f.c.routes && base.vehicleId !in seen
    ensures var job := BaseJob(base, RoutesByVehicle(routes));
            Once(f, routes, if f.Skipped(job) then d else WriteNext(f, d, job), seen + {base.vehicleId})
  {
    RoutesByVehicleIs(routes);
    var job := BaseJob(base, RoutesByVehicle(routes));
    if f.Skipped(job) {
      OnceGrows(f, routes, d, seen, base.vehicleId);
    } else {
      WriteNextOnce(f, routes, d, seen, job, base.vehicleId);
    }
  }

  lemma {:induction false} BaseDraftOnce(f: Frame, routes: seq<SolverRoute>, first: Id, n: nat)
    requires BaseOnce(f.c.routes) && NothingRepeats(f.c) && ServesNeeds(f.c, routes) && OneRoutePerVehicle(f.c.routes) && n <= |f.c.routes|
    ensures Once(f, routes, BaseDraft(f, RoutesByVehicle(routes), first, n), BaseVehicles(f.c.routes[..n]))
  {
    if 0 < n {
      BaseDraftOnce(f, routes, first, n - 1);
      BaseVehiclesOneMore(f.c.routes, n - 1);
      NextBaseOnce(f, routes, BaseDraft(f, RoutesByVehicle(routes), first, n - 1), BaseVehicles(f.c.routes[..n - 1]), f.c.routes[n - 1]);
    }
  }

  lemma {:induction false} LeftoverDraftOnce(f: Frame, routes: seq<SolverRoute>, base: Draft, n: nat)
    requires BaseOnce(f.c.routes) && NothingRepeats(f.c) && ServesNeeds(f.c, routes) && DistinctVehicles(routes) && n <= |routes|
    requires Once(f, routes, base, BaseVehicles(f.c.routes))
    ensures Once(f, routes, LeftoverDraft(f, routes, base, n), BaseVehicles(f.c.routes) + SolverVehicles(routes, n))
  {
    if 0 < n {
      LeftoverDraftOnce(f, routes, base, n - 1);
      var v, seen := routes[n - 1].vehicleId, BaseVehicles(f.c.routes) + SolverVehicles(routes, n - 1);
      assert SolverVehicles(routes, n) == SolverVehicles(routes, n - 1) + {v};
      assert BaseVehicles(f.c.routes) + SolverVehicles(routes, n) == seen + {v};
      if v in BaseVehicles(f.c.routes) {
        assert seen + {v} == seen;
      } else {
        WriteNextOnce(f, routes, LeftoverDraft(f, routes, base, n - 1), seen, Job(None, Some(routes[n - 1])), v);
      }
    } else {
      assert BaseVehicles(f.c.routes) + SolverVehicles(routes, 0) == BaseVehicles(f.c.routes);
    }
  }

  // ----- certified results serve what is needed -----

  /** On one route an order has a stop of each kind it needs at most. */
  lemma {:induction false} CarriedServesNeeds(t: Target, now: Instant, order: SolverOrder, vehicle: SolverVehicle, stops: seq<SolverStop>, m: nat, n: nat)
    requires order == AsRecoveryOrder(now, t) && Carried(order, vehicle, stops) && m < |stops| && n < |stops|
    requires stops[m].orderId == t.orderId && stops[n].orderId == t.orderId
    requires order.Valid()
    ensures Needs(t, stops[m].kind)
    ensures stops[m].kind == stops[n].kind ==> m == n
  {
    if order.DeliveryOnly() {
      var d :| OnlyAt(stops, order.orderId, d) && IsStopOf(stops[d], order, Delivery, order.delivery);
    } else {
      var p, d :| OnlyAtBoth(stops, order.orderId, p, d)
        && IsStopOf(stops[p], order, order.OriginKind(), order.Origin().value) && IsStopOf(stops[d], order, Delivery, order.delivery);
    }
  }

  lemma {:induction false} RouteServesNeeds(c: Recovery, input: SolverInput, result: SolverResult, s: nat, m: nat, n: nat)
    requires input.Valid() && input.orders == AsRecoveryOrders(c.now, c.targets)
    requires StartsInMatrix(input, VehiclesById(input.vehicles)) && FeasibleRouting(input, result)
    requires s < |result.routes| && m < |result.routes[s].stops| && n < |result.routes[s].stops|
    requires result.routes[s].stops[m].orderId == result.routes[s].stops[n].orderId
    ensures NeedAt(TargetsById(c.targets), result.routes[s].stops[m])
    ensures result.routes[s].stops[m].kind == result.routes[s].stops[n].kind ==> m == n
  {
    var orders, vehicles, route := OrdersById(input.orders), VehiclesById(input.vehicles), result.routes[s];
    assert FeasibleRoute(input, orders, vehicles[route.vehicleId], route);
    assert Honest(orders, route.stops, m);
    var o := route.stops[m].orderId;
    assert o in Served(orders, route.stops);
    TargetsAgree(c.now, c.targets);
    DictionariesAreKnown(input);
    CarriedServesNeeds(TargetsById(c.targets)[o], c.now, orders[o], vehicles[route.vehicleId], route.stops, m, n);
  }

  /** An order is on one route, and there each of its needs is served once. */
  lemma {:induction false} NeedIsServedOnce(c: Recovery, input: SolverInput, result: SolverResult, s: int, m: int, u: int, n: int)
    requires input.Valid() && input.orders == AsRecoveryOrders(c.now, c.targets)
    requires StartsInMatrix(input, VehiclesById(input.vehicles)) && FeasibleRouting(input, result)
    requires SameNeed(result.routes, s, m, u, n)
    ensures s == u && m == n
  {
    var o := result.routes[s].stops[m].orderId;
    RouteServesNeeds(c, input, result, s, m, m);
    TargetIsSettled(c, input, result, o);
    assert OnRoute(result.routes, s, o) && OnRoute(result.routes, u, o);
    OneRouteOfOrder(result, o, s, u);
    RouteServesNeeds(c, input, result, s, m, n);
  }

  lemma {:induction false} TargetIsSettled(c: Recovery, input: SolverInput, result: SolverResult, o: Id)
    requires input.MatricesFit() && input.orders == AsRecoveryOrders(c.now, c.targets) && o in TargetsById(c.targets)
    requires StartsInMatrix(input, VehiclesById(input.vehicles)) && FeasibleRouting(input, result)
    ensures SettledOnce(result, o)
  {
    TargetsAgree(c.now, c.targets);
  }

  lemma {:induction false} OneRouteOfOrder(result: SolverResult, o: Id, s: int, u: int)
    requires SettledOnce(result, o) && OnRoute(result.routes, s, o) && OnRoute(result.routes, u, o)
    ensures s == u
  {
  }

  lemma {:induction false} CertifiedServesNeeds(c: Recovery, locations: seq<Id>, distances: Matrix, durations: Matrix, result: SolverResult)
    requires Certified(RecoveryInput(c, locations, distances, durations), result)
    ensures ServesNeeds(c, result.routes) && DistinctVehicles(result.routes)
  {
    var input := RecoveryInput(c, locations, distances, durations);
    AcceptedIffFeasible(input, result);
    forall s, m | 0 <= s < |result.routes| && 0 <= m < |result.routes[s].stops|
      ensures NeedAt(TargetsById(c.targets), result.routes[s].stops[m])
    {
      RouteServesNeeds(c, input, result, s, m, m);
    }
    forall s, m, u, n | SameNeed(result.routes, s, m, u, n) ensures s == u && m == n {
      NeedIsServedOnce(c, input, result, s, m, u, n);
    }
  }

  // ----- the rows are sound -----

  ghost predicate JobOnBase(f: Frame, job: Job) {
    (job.base.Some? ==> job.base.value in f.c.routes) && f.SpliceOf(job).Ok()
  }

  /** New stops come after everything executed, so a written row is executed in order. */
  lemma {:induction false} RowIsSound(f: Frame, job: Job, row: Route)
    requires RowOf(f, job, row) && JobOnBase(f, job) && forall r :: 0 <= r < |f.c.routes| ==> BaseOk(f.c.routes[r])
    ensures BaseOk(row)
  {
    var s := f.SpliceOf(job);
    if job.base.Some? {
      var base := job.base.value;
      PreservedSurvive(base, TargetsById(f.c.targets).Keys, RebuiltIds(f.c.targets));
      assert BaseOk(base) by { var r :| 0 <= r < |f.c.routes| && f.c.routes[r] == base; }
      SplicedRoutesAreWellFormed(s, row.id, base.stops, LostOf(f.c, base));
    } else {
      assert Surviving([], {}) == [];
      SplicedRoutesAreWellFormed(s, row.id, [], {});
    }
    RowIsExecutedInOrder(f, job, row);
  }

  lemma {:induction false} RowIsExecutedInOrder(f: Frame, job: Job, row: Route)
    requires RowOf(f, job, row) && (job.base.Some? ==> ExecutedInOrder(job.base.value.stops))
    ensures ExecutedInOrder(row.stops)
  {
    var s, n := f.SpliceOf(job), |f.Kept(job)|;
    forall i, j | 0 <= i < j < |row.stops|
      ensures row.stops[i].id != row.stops[j].id
      ensures row.stops[j].status == Completed ==> row.stops[i].status == Completed
    {
      RowAt(s, row.id, i);
      RowAt(s, row.id, j);
      if j < n {
        CopyAt(s.preserved, row.id, n, i);
        CopyAt(s.preserved, row.id, n, j);
        KeptInOrder(f, job, i, j);
      } else {
        FreshAt(s, row.id, |s.added|, j - n);
      }
    }
  }

  lemma {:induction false} KeptInOrder(f: Frame, job: Job, i: nat, j: nat)
    requires job.base.Some? && ExecutedInOrder(job.base.value.stops) && i < j < |f.Kept(job)|
    ensures f.Kept(job)[j].status == Completed ==> f.Kept(job)[i].status == Completed
  {
    var base := job.base.value;
    PreservedSurvive(base, TargetsById(f.c.targets).Keys, RebuiltIds(f.c.targets));
    var b := SurvivorFrom(base.stops, LostOf(f.c, base), i);
    var d := SurvivorFrom(base.stops, LostOf(f.c, base), j);
    if d <= b { PositionsGrow(base.stops, LostOf(f.c, base), d, b); }
  }

  lemma {:induction false} PositionsGrow(stops: seq<Stop>, targets: set<Id>, d: nat, b: nat)
    requires d <= b <= |stops|
    ensures Position(stops, targets, d) <= Position(stops, targets, b)
    decreases b
  {
    if d < b {
      SurvivingOneMore(stops, targets, b - 1);
      PositionsGrow(stops, targets, d, b - 1);
    }
  }

  lemma {:induction false} BaseJobsAreOnBase(f: Frame, byVehicle: map<Id, SolverRoute>, first: Id, n: nat, j: nat)
    requires n <= |f.c.routes| && BaseDraft(f, byVehicle, first, n).Written? && j < |BaseJobs(f, byVehicle, n)|
    ensures JobOnBase(f, BaseJobs(f, byVehicle, n)[j])
  {
    if j < |BaseJobs(f, byVehicle, n - 1)| { BaseJobsAreOnBase(f, byVehicle, first, n - 1, j); }
  }

  lemma {:induction false} LeftoverJobsAreOnBase(f: Frame, routes: seq<SolverRoute>, base: Draft, n: nat, j: nat)
    requires n <= |routes| && LeftoverDraft(f, routes, base, n).Written? && j < |LeftoverJobs(f, routes, n)|
    ensures JobOnBase(f, LeftoverJobs(f, routes, n)[j])
  {
    if j < |LeftoverJobs(f, routes, n - 1)| { LeftoverJobsAreOnBase(f, routes, base, n - 1, j); }
  }

  lemma {:induction false} JobIsOnBase(f: Frame, result: SolverResult, first: Id, j: nat)
    requires FinalDraft(f, result, first).Written? && j < |Jobs(f, result)|
    ensures JobOnBase(f, Jobs(f, result)[j])
  {
    var byVehicle := RoutesByVehicle(result.routes);
    var base, n := BaseDraft(f, byVehicle, first, |f.c.routes|), |BaseJobs(f, byVehicle, |f.c.routes|)|;
    LeftoverKeepsRows(f, result.routes, base, |result.routes|);
    if j < n {
      BaseJobsAreOnBase(f, byVehicle, first, |f.c.routes|, j);
    } else {
      LeftoverJobsAreOnBase(f, result.routes, base, |result.routes|, j - n);
    }
  }

  // ----- a repeated need is done twice -----

  /** A fully assigned result serves every need of every target. */
  lemma {:induction false} NeedIsServed(c: Recovery, locations: seq<Id>, distances: Matrix, durations: Matrix, result: SolverResult, o: Id, kind: StopKind)
    returns (s: nat, m: nat)
    requires Certified(RecoveryInput(c, locations, distances, durations), result) && result.unassigned == []
    requires o in TargetsById(c.targets) && Needs(TargetsById(c.targets)[o], kind)
    ensures s < |result.routes| && m < |result.routes[s].stops|
    ensures result.routes[s].stops[m].orderId == o && result.routes[s].stops[m].kind == kind
  {
    var input := RecoveryInput(c, locations, distances, durations);
    AcceptedIffFeasible(input, result);
    TargetIsSettled(c, input, result, o);
    var i :| OnRoute(result.routes, i, o);
    s := i;
    var order := TargetIsCarried(c, input, result, o, s);
    m := CarriedHasKind(TargetsById(c.targets)[o], c.now, order, result.routes[s], kind);
  }

  lemma {:induction false} TargetIsCarried(c: Recovery, input: SolverInput, result: SolverResult, o: Id, s: nat) returns (order: SolverOrder)
    requires input.Valid() && input.orders == AsRecoveryOrders(c.now, c.targets) && o in TargetsById(c.targets)
    requires StartsInMatrix(input, VehiclesById(input.vehicles)) && FeasibleRouting(input, result)
    requires OnRoute(result.routes, s, o)
    ensures order == AsRecoveryOrder(c.now, TargetsById(c.targets)[o]) && order.orderId == o && order.Valid()
    ensures exists vehicle :: Carried(order, vehicle, result.routes[s].stops)
  {
    TargetsAgree(c.now, c.targets);
    DictionariesAreKnown(input);
    var orders, vehicles, route := OrdersById(input.orders), VehiclesById(input.vehicles), result.routes[s];
    order := orders[o];
    OnRouteIsServed(orders, result.routes, s, o);
    assert FeasibleRoute(input, orders, vehicles[route.vehicleId], route);
    assert Carried(order, vehicles[route.vehicleId], route.stops);
  }

  lemma {:induction false} CarriedHasKind(t: Target, now: Instant, order: SolverOrder, route: SolverRoute, kind: StopKind) returns (m: nat)
    requires order == AsRecoveryOrder(now, t) && order.Valid() && Needs(t, kind)
    requires exists vehicle :: Carried(order, vehicle, route.stops)
    ensures m < |route.stops| && route.stops[m].orderId == t.orderId && route.stops[m].kind == kind
  {
    var vehicle :| Carried(order, vehicle, route.stops);
    if order.DeliveryOnly() {
      var d :| OnlyAt(route.stops, order.orderId, d) && IsStopOf(route.stops[d], order, Delivery, order.delivery);
      m := d;
    } else {
      var p, d :| OnlyAtBoth(route.stops, order.orderId, p, d)
        && IsStopOf(route.stops[p], order, order.OriginKind(), order.Origin().value)
        && IsStopOf(route.stops[d], order, Delivery, order.delivery);
      m := if kind == Delivery then d else p;
    }
  }

  lemma {:induction false} LeftoverRowExists(f: Frame, routes: seq<SolverRoute>, base: Draft, n: nat, s: nat) returns (j: nat)
    requires s < n <= |routes| && LeftoverDraft(f, routes, base, n).Written? && routes[s].vehicleId !in BaseVehicles(f.c.routes)
    ensures j < |LeftoverDraft(f, routes, base, n).rows|
    ensures RowOf(f, Job(None, Some(routes[s])), LeftoverDraft(f, routes, base, n).rows[j])
  {
    var before := LeftoverDraft(f, routes, base, n - 1);
    if s < n - 1 {
      j := LeftoverRowExists(f, routes, base, n - 1, s);
    } else {
      j := |before.rows|;
      WrittenRow(f, Job(None, Some(routes[s])), before.next, |before.rows| + 1);
    }
  }

  /** The row that a solver route goes to: that of its vehicle's base route, or one of its own. */
  lemma {:induction false} SolverRouteIsWritten(f: Frame, result: SolverResult, first: Id, s: nat) returns (j: nat, job: Job)
    requires FinalDraft(f, result, first).Written? && DistinctVehicles(result.routes) && s < |result.routes| && result.routes[s].stops != []
    ensures j < |FinalDraft(f, result, first).rows| && RowOf(f, job, FinalDraft(f, result, first).rows[j])
    ensures job.solver == Some(result.routes[s])
    ensures job.base.Some? ==> job.base.value in f.c.routes && job.base.value.vehicleId == result.routes[s].vehicleId
    ensures job.base == None ==> result.routes[s].vehicleId !in BaseVehicles(f.c.routes)
  {
    RouteOfVehicle(result.routes, s);
    if result.routes[s].vehicleId in BaseVehicles(f.c.routes) {
      var r :| 0 <= r < |f.c.routes| && f.c.routes[r].vehicleId == result.routes[s].vehicleId;
      job := BaseJob(f.c.routes[r], RoutesByVehicle(result.routes));
      j := RowExists(f, result, first, r);
    } else {
      job := Job(None, Some(result.routes[s]));
      j := LeftoverRowExists(f, result.routes, BaseDraft(f, RoutesByVehicle(result.routes), first, |f.c.routes|), |result.routes|, s);
    }
  }

  lemma {:induction false} SameKeyTwice(rows: seq<Route>, j: nat, i: nat, q: nat, k: nat)
    requires j < |rows| && i < |rows[j].stops| && q < |rows| && k < |rows[q].stops| && (j != q || i != k)
    requires KeyOf(rows[j].stops[i]) == KeyOf(rows[q].stops[k])
    ensures !DistinctKeys(Actions(rows))
  {
    if DistinctKeys(Actions(rows)) {
      DistinctActionsAreOnce(rows);
      assert SameAction(rows, j, i, q, k);
      assert false;
    }
  }

  /** The kept stop is in the row of its base route. */
  lemma {:induction false} RepeatIsKept(f: Frame, result: SolverResult, first: Id, r: nat, b: nat) returns (j: nat, i: nat)
    requires FinalDraft(f, result, first).Written? && Repeats(f.c, r, b)
    ensures j < |FinalDraft(f, result, first).rows|
    ensures RowOf(f, BaseJob(f.c.routes[r], RoutesByVehicle(result.routes)), FinalDraft(f, result, first).rows[j])
    ensures i < |f.Kept(BaseJob(f.c.routes[r], RoutesByVehicle(result.routes)))|
    ensures i < |FinalDraft(f, result, first).rows[j].stops|
    ensures KeyOf(FinalDraft(f, result, first).rows[j].stops[i]) == KeyOf(f.c.routes[r].stops[b])
  {
    var base := f.c.routes[r];
    PreservedSurvive(base, TargetsById(f.c.targets).Keys, RebuiltIds(f.c.targets));
    SurvivorAt(base.stops, LostOf(f.c, base), b);
    j := RowExists(f, result, first, r);
    i := SurvivorIsCopied(f, BaseJob(base, RoutesByVehicle(result.routes)), FinalDraft(f, result, first).rows[j], base, b);
  }

  /** The new stop is in a row of its vehicle: behind the kept stops of base route r, if that is one. */
  lemma {:induction false} NewIsWritten(f: Frame, result: SolverResult, first: Id, r: nat, s: nat, m: nat) returns (q: nat, k: nat)
    requires FinalDraft(f, result, first).Written? && DistinctVehicles(result.routes) && OneRoutePerVehicle(f.c.routes)
    requires r < |f.c.routes| && s < |result.routes| && m < |result.routes[s].stops|
    ensures q < |FinalDraft(f, result, first).rows| && k < |FinalDraft(f, result, first).rows[q].stops|
    ensures FinalDraft(f, result, first).rows[q].vehicleId == result.routes[s].vehicleId
    ensures f.c.routes[r].vehicleId == result.routes[s].vehicleId ==> |f.Kept(BaseJob(f.c.routes[r], RoutesByVehicle(result.routes)))| <= k
    ensures KeyOf(FinalDraft(f, result, first).rows[q].stops[k]) == NewKey(f.c.incidentId, result.routes[s].stops[m])
  {
    var job: Job;
    q, job := SolverRouteIsWritten(f, result, first, s);
    FreshKey(f, job, FinalDraft(f, result, first).rows[q], m);
    k := |f.Kept(job)| + m;
    if f.c.routes[r].vehicleId == result.routes[s].vehicleId {
      assert f.c.routes[r].vehicleId in BaseVehicles(f.c.routes);
      assert job.base == Some(f.c.routes[r]) by { var d :| 0 <= d < |f.c.routes| && f.c.routes[d] == job.base.value; }
    }
  }

  lemma {:induction false} BaseRowVehicle(f: Frame, base: Route, byVehicle: map<Id, SolverRoute>, row: Route)
    requires RowOf(f, BaseJob(base, byVehicle), row)
    ensures row.vehicleId == base.vehicleId
  {
  }

  /** The kept stop and the new one are both in the candidate. */
  lemma {:induction false} RepeatIsWrittenTwice(f: Frame, result: SolverResult, first: Id, r: nat, b: nat, s: nat, m: nat)
    requires FinalDraft(f, result, first).Written? && DistinctVehicles(result.routes) && OneRoutePerVehicle(f.c.routes)
    requires Repeats(f.c, r, b) && s < |result.routes| && m < |result.routes[s].stops|
    requires NewKey(f.c.incidentId, result.routes[s].stops[m]) == KeyOf(f.c.routes[r].stops[b])
    ensures !DistinctKeys(Actions(FinalDraft(f, result, first).rows))
  {
    var j, i := RepeatIsKept(f, result, first, r, b);
    var q, k := NewIsWritten(f, result, first, r, s, m);
    BaseRowVehicle(f, f.c.routes[r], RoutesByVehicle(result.routes), FinalDraft(f, result, first).rows[j]);
    SameKeyTwice(FinalDraft(f, result, first).rows, j, i, q, k);
  }

  // ----- main results -----

  /** The candidate of a certified, fully assigned result can be compared with its base plan exactly
      when no stop that survives serves a need that its order has again. */
  lemma {:induction false} CandidateIsComparable(f: Frame, locations: seq<Id>, distances: Matrix, durations: Matrix, result: SolverResult, first: Id)
    requires Certified(RecoveryInput(f.c, locations, distances, durations), result) && result.unassigned == []
    requires OneRoutePerVehicle(f.c.routes) && DistinctKeys(Actions(f.c.routes)) && FinalDraft(f, result, first).Written?
    ensures DistinctKeys(Actions(FinalDraft(f, result, first).rows)) <==> NothingRepeats(f.c)
  {
    CertifiedServesNeeds(f.c, locations, distances, durations, result);
    if NothingRepeats(f.c) {
      DistinctActionsAreOnce(f.c.routes);
      BaseDraftOnce(f, result.routes, first, |f.c.routes|);
      assert f.c.routes[..|f.c.routes|] == f.c.routes;
      LeftoverDraftOnce(f, result.routes, BaseDraft(f, RoutesByVehicle(result.routes), first, |f.c.routes|), |result.routes|);
    } else {
      var r, b :| Repeats(f.c, r, b);
      var stop := f.c.routes[r].stops[b];
      var s, m := NeedIsServed(f.c, locations, distances, durations, result, stop.orderId, stop.kind);
      RepeatIsWrittenTwice(f, result, first, r, b, s, m);
    }
  }

  /** A written candidate of a certified result is as sound as its base plan: every row is numbered,
      linked and executed in order, vehicles and ids are distinct, and no action occurs twice exactly
      when nothing is repeated. */
  lemma {:induction false} CandidateIsSound(f: Frame, locations: seq<Id>, distances: Matrix, durations: Matrix, result: SolverResult, first: Id)
    requires Certified(RecoveryInput(f.c, locations, distances, durations), result) && result.unassigned == []
    requires SoundPlan(f.c.routes) && FinalDraft(f, result, first).Written?
    ensures forall j :: 0 <= j < |FinalDraft(f, result, first).rows| ==> BaseOk(FinalDraft(f, result, first).rows[j])
    ensures SoundPlan(FinalDraft(f, result, first).rows) <==> NothingRepeats(f.c)
  {
    var d := FinalDraft(f, result, first);
    CertifiedServesNeeds(f.c, locations, distances, durations, result);
    CandidateIsComparable(f, locations, distances, durations, result, first);
    FinalDraftOk(f, result, first);
    RowsHaveDistinctIds(d.rows, d.next);
    BaseRowsOfJobs(f, RoutesByVehicle(result.routes), first, |f.c.routes|);
    LeftoverRowsOfJobs(f, result.routes, BaseDraft(f, RoutesByVehicle(result.routes), first, |f.c.routes|),
                       BaseJobs(f, RoutesByVehicle(result.routes), |f.c.routes|), |result.routes|);
    forall j | 0 <= j < |d.rows| ensures BaseOk(d.rows[j]) {
      JobIsOnBase(f, result, first, j);
      RowIsSound(f, Jobs(f, result)[j], d.rows[j]);
    }
  }

  /** For a certified recovery of a sound plan that repeats nothing, the comparison protects exactly
      the executed stops. */
  lemma {:induction false} CertifiedHistoryIsProtected(f: Frame, locations: seq<Id>, distances: Matrix, durations: Matrix, result: SolverResult, first: Id,
      members: seq<Member>)
    requires Certified(RecoveryInput(f.c, locations, distances, durations), result) && result.unassigned == []
    requires SoundPlan(f.c.routes) && NothingRepeats(f.c) && FinalDraft(f, result, first).Written?
    ensures Comparable(f, result, first)
    ensures DiffOf(Snapshot(f.c.routes, f.c.members), Snapshot(FinalDraft(f, result, first).rows, members)).protectedStops
            == ExecutedCount(Actions(f.c.routes))
  {
    CertifiedServesNeeds(f.c, locations, distances, durations, result);
    CandidateIsComparable(f, locations, distances, durations, result, first);
    AllExecutedStopsAreProtected(f, result, first, members);
  }
}
