/** Which recoveries of a stored plan repeat an action: exactly those that replan a completed order. */
module ReplannedOrders {
  import opened Ordering
  import opened Domain
  import opened Optimization
  import opened Feasibility
  import opened Finalizer
  import opened FinalizedPlan
  import opened CapacitySafety
  import opened Execution
  import opened ExecutionInvariants
  import Candidate
  import CandidateLaws
  import CandidateActions
  import RecoveryHistory
  import opened RecoveryContext
  import Comparison
  import opened ExecutedPlans

  // ----- the recovery of a stored plan -----

  /** The membership as the context reads it. */
  function RouteOfMember(m: Membership): Option<Id> {
    if m.OnRouteRow? then Some(m.routeId) else None
  }

  /** The base is read from the tables: every member with its order row, every route as it stands. */
  ghost predicate ReadTables(b: Base, w: World, members: seq<Membership>) {
    && b.routes == w.routes
    && MembersRead(b, members) && OrdersRead(b, w)
  }

  ghost predicate OrdersRead(b: Base, w: World) {
    forall o :: o in b.rows ==> OrderRead(b.rows[o], w, o)
  }

  ghost predicate MembersRead(b: Base, members: seq<Membership>) {
    && (forall o :: o in b.rows ==> exists j :: MemberRead(b, members, j, o))
    && (forall j :: 0 <= j < |members| ==> members[j].orderId in b.rows)
  }

  ghost predicate OrderRead(row: BaseRow, w: World, o: Id) {
    && o in w.orders && row.status == w.orders[o].status
    && row.order.orderId == o && row.order.demand == w.orders[o].demand
  }

  ghost predicate MemberRead(b: Base, members: seq<Membership>, j: int, o: Id) {
    0 <= j < |members| && members[j].orderId == o && o in b.rows && b.rows[o].routeId == RouteOfMember(members[j])
  }

  /** A stored plan, the stop actions on it, and the context of a recovery in a scope. */
  datatype Replan = Replan(origin: Origin, threshold: nat, w: World, calls: seq<Call>, b: Base, scope: Scope, targets: set<Id>,
                           c: Candidate.Recovery)
  {
    ghost function Tables(): Context {
      ContextOf(origin.facts, origin.roads, origin.planId)
    }

    ghost function After(): World {
      Run(threshold, w, calls)
    }

    ghost predicate Planned() {
      && origin.Ok() && AllBuildable(origin.facts, origin.result, Tables(), origin.first)
      && CapacitySafety.Installed(w, Tables(), origin.Rows())
    }

    ghost function RouteIds(): seq<Id>
      requires Planned()
    {
      Ids(origin.Rows())
    }

    ghost predicate Materialized()
      requires Planned()
    {
      && ReadTables(b, After(), NewMemberships(origin.facts, origin.result, Tables(), origin.first))
      && (forall o :: o in targets <==> InScope(b, scope, o))
      && FactsOf(b, Ascending(targets), c.targets)
      && RowsIn(After(), RouteIds()) && c.routes == PlanRoutes(After(), RouteIds())
    }

    ghost predicate Ok() {
      Planned() && Materialized()
    }
  }

  // ----- the targets -----

  lemma {:induction false} FactsById(b: Base, ids: seq<Id>, facts: seq<Candidate.Target>)
    requires FactsOf(b, ids, facts) && forall o :: o in b.rows ==> b.rows[o].order.orderId == o
    ensures Candidate.TargetsById(facts).Keys == Elements(ids)
    ensures forall o :: o in Candidate.TargetsById(facts) ==> Obstacle(b, o) == None && Candidate.TargetsById(facts)[o] == FactOf(b, o)
  {
    if ids != [] {
      var n := |ids| - 1;
      FactsById(b, ids[..n], facts[..n]);
      assert Obstacle(b, ids[n]) == None && facts[n] == FactOf(b, ids[n]);
      assert Elements(ids) == Elements(ids[..n]) + {ids[n]};
    }
  }

  lemma {:induction false} TargetsAre(b: Base, targets: set<Id>, facts: seq<Candidate.Target>)
    requires FactsOf(b, Ascending(targets), facts) && forall o :: o in b.rows ==> b.rows[o].order.orderId == o
    ensures Candidate.TargetsById(facts).Keys == targets
    ensures forall o :: o in targets ==> Obstacle(b, o) == None && Candidate.TargetsById(facts)[o] == FactOf(b, o)
  {
    AscendingSorts(targets);
    FactsById(b, Ascending(targets), facts);
    assert Elements(Ascending(targets)) == targets;
  }

  /** The route of a target loses it. */
  lemma {:induction false} TargetRouteIsRebuilt(b: Base, targets: set<Id>, facts: seq<Candidate.Target>, o: Id)
    requires FactsOf(b, Ascending(targets), facts) && o in targets && Obstacle(b, o) == None && FactOf(b, o).originalRoute.Some?
    ensures FactOf(b, o).originalRoute.value in Candidate.RebuiltIds(facts)
  {
    AscendingSorts(targets);
    assert o in Ascending(targets);
    var k :| 0 <= k < |Ascending(targets)| && Ascending(targets)[k] == o;
    assert facts[k].originalRoute.Some?;
  }

  // ----- the orders -----

  /** An order without a stop stays planned. */
  lemma {:induction false} UnservedStaysPlanned(threshold: nat, w: World, calls: seq<Call>, o: Id)
    requires Fresh(w) && o in Run(threshold, w, calls).orders
    requires forall r, k :: !HasStop(Run(threshold, w, calls), r, k, o)
    ensures Run(threshold, w, calls).orders[o].status == OrderPlanned
  {
    FreshIsOk(w);
    RunKeepsWorldOk(threshold, w, StartRanks(w), calls);
    HistoryIsKept(threshold, w, StartRanks(w), calls);
    assert RankOk(Run(threshold, w, calls), StartRanks(w), o);
  }

  /** Route i is the only one of the order; it has one pickup and one delivery, and the stored status
      follows from them. */
  ghost predicate FollowsStops(x: Replan, i: int, p: int, d: int, o: Id)
    requires x.Planned()
  {
    && 0 <= i < |x.RouteIds()| && o in x.After().orders && ServedAt(x.After(), x.RouteIds()[i], p, d, o)
    && x.After().orders[o].status == StatusFrom(x.After().routes[x.RouteIds()[i]].stops[p].status, x.After().routes[x.RouteIds()[i]].stops[d].status)
  }

  lemma {:induction false} PlannedIsStored(x: Replan)
    requires x.Planned()
    ensures Stored(x.w, x.Tables(), x.RouteIds(), x.origin.result.routes) && Fresh(x.w)
    ensures Routed(x.Tables().orders, x.Tables().pairs, x.origin.result)
    ensures |x.RouteIds()| == |x.origin.result.routes|
  {
    var o := x.origin;
    CertifiedIsRouted(o.facts, o.locations, o.distances, o.durations, o.result);
    InstalledIsStored(x.w, x.Tables(), o.first, o.result);
    StoredIsFresh(x.w, x.Tables(), x.RouteIds(), o.result.routes);
  }

  lemma {:induction false} OrderOnRoute(x: Replan, i: nat, k: nat) returns (p: int, d: int)
    requires x.Planned() && i < |x.origin.result.routes| && k < |x.origin.result.routes[i].stops|
    ensures FollowsStops(x, i, p, d, x.origin.result.routes[i].stops[k].orderId)
  {
    PlannedIsStored(x);
    var result, tables := x.origin.result, x.Tables();
    var o := result.routes[i].stops[k].orderId;
    assert RouteFits(tables.orders, tables.pairs[result.routes[i].vehicleId], result.routes[i]);
    assert StopFits(tables.orders, result.routes[i].stops, k) && SettledOnce(result, o);
    p, d :| PickedThenDropped(result.routes[i].stops, o, p, d);
    StoredServes(x.w, tables, x.RouteIds(), result, i, o, p, d);
    OrderStatusFollowsStops(x.threshold, x.w, x.calls, x.RouteIds()[i], p, d, o);
  }

  /** The solver stop behind a stored one. */
  lemma {:induction false} StopOfRoute(x: Replan, r: Id, k: int, o: Id) returns (i: nat)
    requires x.Planned() && HasStop(x.After(), r, k, o)
    ensures i < |x.origin.result.routes| && i < |x.RouteIds()| && r == x.RouteIds()[i]
    ensures 0 <= k < |x.origin.result.routes[i].stops| && x.origin.result.routes[i].stops[k].orderId == o
    ensures x.RouteIds()[i] == RouteIdAt(x.origin.first, x.origin.result.routes, i)
  {
    PlannedIsStored(x);
    FreshIsOk(x.w);
    HistoryIsKept(x.threshold, x.w, StartRanks(x.w), x.calls);
    assert RouteExtends(x.w.routes[r], x.After().routes[r]);
    assert StopExtends(x.w.routes[r].stops[k], x.After().routes[r].stops[k]);
    assert r in x.RouteIds();
    i :| 0 <= i < |x.RouteIds()| && x.RouteIds()[i] == r;
    var routes := x.origin.result.routes;
    HasStopMeans(x.w, r, x.Tables().orders, x.Tables().pairs[routes[i].vehicleId], routes[i], k, o);
    NewRouteIsFinalized(x.Tables(), x.origin.first, routes, i);
  }

  /** The membership of an order names the route of its stops. */
  lemma {:induction false} MembershipNamesTheRoute(x: Replan, i: nat, o: Id)
    requires x.Ok() && o in x.b.rows && i < |x.RouteIds()| && OnRoute(x.origin.result.routes, i, o)
    ensures x.b.rows[o].routeId == Some(x.RouteIds()[i])
  {
    PlannedIsStored(x);
    var members := MembersSettle(x);
    var j :| MemberRead(x.b, members, j, o);
    assert SettledBy(x.origin.first, x.origin.result.routes, members[j].orderId, members[j]);
    NewRouteIsFinalized(x.Tables(), x.origin.first, x.origin.result.routes, i);
    SettledByThatRoute(x.origin.first, x.origin.result, i, o, members[j]);
  }

  lemma {:induction false} MembersSettle(x: Replan) returns (members: seq<Membership>)
    requires x.Planned()
    ensures members == NewMemberships(x.origin.facts, x.origin.result, x.Tables(), x.origin.first)
    ensures forall j :: 0 <= j < |members| ==>
              && SettledBy(x.origin.first, x.origin.result.routes, members[j].orderId, members[j])
              && SettledOnce(x.origin.result, members[j].orderId)
  {
    var g, c := x.origin, x.Tables();
    members := NewMemberships(g.facts, g.result, c, g.first);
    MembershipsSettleEveryOrder(g.facts, g.locations, g.distances, g.durations, g.result, c, g.first,
                                NewPlan(g.facts, g.result, c.roads, None, None, c.planId), None, None);
    CertifiedIsRouted(g.facts, g.locations, g.distances, g.durations, g.result);
    PlanningOrderKeys(g.facts.orders);
  }

  lemma {:induction false} SettledByThatRoute(first: Id, result: SolverResult, i: nat, o: Id, m: Membership)
    requires SettledBy(first, result.routes, o, m) && SettledOnce(result, o) && OnRoute(result.routes, i, o)
    ensures m == OnRouteRow(o, RouteIdAt(first, result.routes, i))
  {
  }

  /** What the context knows of stop i of route r: the stored status of its order follows from the order's
      two stops on the route, and its membership names the route. */
  ghost predicate KnownStop(b: Base, routes: seq<Route>, r: int, i: int, p: int, d: int) {
    && 0 <= r < |routes| && 0 <= i < |routes[r].stops| && 0 <= p < d < |routes[r].stops| && (i == p || i == d)
    && routes[r].stops[p].kind == Pickup && routes[r].stops[d].kind == Delivery
    && routes[r].stops[p].orderId == routes[r].stops[d].orderId
    && var o := routes[r].stops[i].orderId;
       && o in b.rows && b.rows[o].status == StatusFrom(routes[r].stops[p].status, routes[r].stops[d].status)
       && b.rows[o].routeId == Some(routes[r].id) && routes[r].id in b.routes && b.routes[routes[r].id] == routes[r]
  }

  lemma {:induction false} RouteKeepsId(x: Replan, i: nat)
    requires x.Ok() && i < |x.RouteIds()|
    ensures x.RouteIds()[i] in x.w.routes && x.c.routes[i] == x.After().routes[x.RouteIds()[i]] && x.c.routes[i].id == x.RouteIds()[i]
  {
    PlannedIsStored(x);
    FreshIsOk(x.w);
    HistoryIsKept(x.threshold, x.w, StartRanks(x.w), x.calls);
    var rows := x.origin.Rows();
    assert rows[i].id in x.w.routes && x.w.routes[rows[i].id] == rows[i];
    assert RouteExtends(x.w.routes[rows[i].id], x.After().routes[rows[i].id]);
  }

  /** Stop k of row r of the plan is stop k of solver route r. */
  lemma {:induction false} SolverStopOf(x: Replan, r: nat, k: nat)
    requires x.Planned() && r < |x.RouteIds()| && x.RouteIds()[r] in x.After().routes && k < |x.After().routes[x.RouteIds()[r]].stops|
    ensures r < |x.origin.result.routes| && k < |x.origin.result.routes[r].stops|
    ensures x.origin.result.routes[r].stops[k].orderId == x.After().routes[x.RouteIds()[r]].stops[k].orderId
    ensures OnRoute(x.origin.result.routes, r, x.After().routes[x.RouteIds()[r]].stops[k].orderId)
  {
    var o := x.After().routes[x.RouteIds()[r]].stops[k].orderId;
    assert HasStop(x.After(), x.RouteIds()[r], k, o);
    var i := StopOfRoute(x, x.RouteIds()[r], k, o);
    SameRow(x, i, r);
  }

  lemma {:induction false} StopIsKnown(b: Base, w: World, routes: seq<Route>, r: nat, k: nat, p: int, d: int)
    requires r < |routes| && k < |routes[r].stops| && routes[r].id in w.routes && w.routes[routes[r].id] == routes[r] && b.routes == w.routes
    requires var o := routes[r].stops[k].orderId;
             && ServedAt(w, routes[r].id, p, d, o) && o in b.rows && OrderRead(b.rows[o], w, o)
             && w.orders[o].status == StatusFrom(routes[r].stops[p].status, routes[r].stops[d].status)
             && b.rows[o].routeId == Some(routes[r].id)
    ensures KnownStop(b, routes, r, k, p, d)
  {
    assert HasStop(w, routes[r].id, k, routes[r].stops[k].orderId);
  }

  lemma {:induction false} StopOfTarget(x: Replan, r: nat, k: nat) returns (p: int, d: int)
    requires x.Ok() && r < |x.c.routes| && k < |x.c.routes[r].stops| && x.c.routes[r].stops[k].orderId in x.b.rows
    ensures KnownStop(x.b, x.c.routes, r, k, p, d)
  {
    p, d := ServiceOfStop(x, r, k);
    MembershipNamesTheRoute(x, r, x.c.routes[r].stops[k].orderId);
    StatusIsRead(x, x.c.routes[r].stops[k].orderId);
    StopIsKnown(x.b, x.After(), x.c.routes, r, k, p, d);
  }

  lemma {:induction false} ServiceOfStop(x: Replan, r: nat, k: nat) returns (p: int, d: int)
    requires x.Ok() && r < |x.c.routes| && k < |x.c.routes[r].stops|
    ensures r < |x.RouteIds()| && x.RouteIds()[r] == x.c.routes[r].id && OnRoute(x.origin.result.routes, r, x.c.routes[r].stops[k].orderId)
    ensures x.c.routes[r].id in x.After().routes && x.After().routes[x.c.routes[r].id] == x.c.routes[r]
    ensures ServedAt(x.After(), x.c.routes[r].id, p, d, x.c.routes[r].stops[k].orderId) && x.c.routes[r].stops[k].orderId in x.After().orders
    ensures x.After().orders[x.c.routes[r].stops[k].orderId].status
            == StatusFrom(x.c.routes[r].stops[p].status, x.c.routes[r].stops[d].status)
  {
    RouteKeepsId(x, r);
    SolverStopOf(x, r, k);
    p, d := OrderOnRoute(x, r, k);
  }

  lemma {:induction false} StatusIsRead(x: Replan, o: Id)
    requires x.Ok() && o in x.b.rows
    ensures OrderRead(x.b.rows[o], x.After(), o) && x.b.routes == x.After().routes
  {
  }

  lemma {:induction false} SameRow(x: Replan, i: nat, j: nat)
    requires x.Planned() && i < |x.RouteIds()| && j < |x.RouteIds()| && x.RouteIds()[i] == x.RouteIds()[j]
    ensures i == j
  {
    PlannedIsStored(x);
    var routes := x.origin.result.routes;
    NewRouteIsFinalized(x.Tables(), x.origin.first, routes, i);
    NewRouteIsFinalized(x.Tables(), x.origin.first, routes, j);
    if i < j { RouteIdsGrow(x.origin.first, routes, i, j); }
    if j < i { RouteIdsGrow(x.origin.first, routes, j, i); }
  }

  // ----- what is repeated -----

  ghost predicate Finished(b: Base, o: Id) {
    o in b.rows && b.rows[o].status == OrderCompleted
  }

  /** A pickup is only needed by an order that has not been picked up or is handed over. */
  lemma {:induction false} DonePickupIsNotNeeded(b: Base, o: Id, pickup: StopStatus, delivery: StopStatus, kind: StopKind)
    requires Obstacle(b, o) == None && b.rows[o].status == StatusFrom(pickup, delivery) && HasRoute(b, b.rows[o])
    requires CandidateActions.Needs(FactOf(b, o), kind)
    requires (kind == Pickup && pickup == Completed) || (kind == Delivery && delivery == Completed)
    ensures Finished(b, o)
  {
  }

  lemma {:induction false} RepeatIsOfFinished(b: Base, targets: set<Id>, c: Candidate.Recovery, r: nat, i: nat, p: nat, d: nat)
    requires KnownStop(b, c.routes, r, i, p, d) && CandidateActions.Repeats(c, r, i)
    requires FactsOf(b, Ascending(targets), c.targets) && forall o :: o in b.rows ==> b.rows[o].order.orderId == o
    ensures c.routes[r].stops[i].orderId in targets && Finished(b, c.routes[r].stops[i].orderId)
  {
    var o := c.routes[r].stops[i].orderId;
    TargetsAre(b, targets, c.targets);
    TargetRouteIsRebuilt(b, targets, c.targets, o);
    DonePickupIsNotNeeded(b, o, c.routes[r].stops[p].status, c.routes[r].stops[d].status, c.routes[r].stops[i].kind);
  }

  lemma {:induction false} FinishedIsRepeated(b: Base, targets: set<Id>, c: Candidate.Recovery, r: nat, i: nat, p: nat, d: nat)
    requires KnownStop(b, c.routes, r, i, p, d) && c.routes[r].stops[i].orderId in targets && Finished(b, c.routes[r].stops[i].orderId)
    requires FactsOf(b, Ascending(targets), c.targets) && forall o :: o in b.rows ==> b.rows[o].order.orderId == o
    ensures CandidateActions.Repeats(c, r, d)
  {
    TargetsAre(b, targets, c.targets);
  }

  /** An order that has been started has a stop in the plan. */
  lemma {:induction false} StartedHasStop(x: Replan, o: Id) returns (r: nat, k: nat)
    requires x.Ok() && o in x.b.rows && x.b.rows[o].status != OrderPlanned
    ensures r < |x.c.routes| && k < |x.c.routes[r].stops| && x.c.routes[r].stops[k].orderId == o
  {
    PlannedIsStored(x);
    StatusIsRead(x, o);
    if forall q, j :: !HasStop(x.After(), q, j, o) {
      UnservedStaysPlanned(x.threshold, x.w, x.calls, o);
      assert false;
    }
    var q, j :| HasStop(x.After(), q, j, o);
    r := StopOfRoute(x, q, j, o);
    k := j;
    RouteKeepsId(x, r);
  }

  lemma {:induction false} FactsAreRead(x: Replan)
    requires x.Ok()
    ensures FactsOf(x.b, Ascending(x.targets), x.c.targets) && forall o :: o in x.b.rows ==> x.b.rows[o].order.orderId == o
    ensures forall o :: o in x.targets <==> InScope(x.b, x.scope, o)
  {
  }

  lemma {:induction false} FinishedTargetIsRepeated(x: Replan, o: Id)
    requires x.Ok() && o in x.targets && Finished(x.b, o)
    ensures !CandidateActions.NothingRepeats(x.c)
  {
    var r, k := StartedHasStop(x, o);
    var p, d := StopOfTarget(x, r, k);
    FactsAreRead(x);
    FinishedIsRepeated(x.b, x.targets, x.c, r, k, p, d);
  }

  lemma {:induction false} RepeatHasFinishedTarget(x: Replan, r: nat, k: nat) returns (o: Id)
    requires x.Ok() && CandidateActions.Repeats(x.c, r, k)
    ensures o in x.targets && Finished(x.b, o)
  {
    o := x.c.routes[r].stops[k].orderId;
    FactsAreRead(x);
    TargetsAre(x.b, x.targets, x.c.targets);
    var p, d := StopOfTarget(x, r, k);
    RepeatIsOfFinished(x.b, x.targets, x.c, r, k, p, d);
  }

  /** The recovery repeats an action exactly when one of its targets is a completed order. */
  lemma {:induction false} RepeatsIffFinishedTarget(x: Replan)
    requires x.Ok()
    ensures CandidateActions.NothingRepeats(x.c) <==> forall o :: o in x.targets ==> !Finished(x.b, o)
  {
    if o :| o in x.targets && Finished(x.b, o) {
      FinishedTargetIsRepeated(x, o);
    }
    if r, k :| CandidateActions.Repeats(x.c, r, k) {
      var o := RepeatHasFinishedTarget(x, r, k);
    }
  }

  /** No order that the incident was reported to affect has been completed since. */
  ghost predicate NoneFinished(b: Base) {
    forall o :: Affected(b, o) ==> !Finished(b, o)
  }

  /** The three scopes leave completed orders out, but the affected orders come in unfiltered. */
  lemma {:induction false} RepeatsIffFinishedAffected(x: Replan)
    requires x.Ok()
    ensures CandidateActions.NothingRepeats(x.c) <==> NoneFinished(x.b)
  {
    RepeatsIffFinishedTarget(x);
    FactsAreRead(x);
    forall o | Affected(x.b, o) ensures o in x.targets {
      assert InScope(x.b, x.scope, o);
    }
    forall o | o in x.targets ensures Affected(x.b, o) || !Finished(x.b, o) {
      assert InScope(x.b, x.scope, o);
    }
  }

  lemma {:induction false} PlannedRoutesAreRows(x: Replan)
    requires x.Planned()
    ensures RowsIn(x.w, x.RouteIds()) && PlanRoutes(x.w, x.RouteIds()) == x.origin.Rows()
  {
    var rows := x.origin.Rows();
    forall i | 0 <= i < |rows| ensures rows[i].id in x.w.routes && x.w.routes[rows[i].id] == rows[i] {
    }
  }

  lemma {:induction false} PlanOfRecoveryIsSound(x: Replan)
    requires x.Ok()
    ensures RecoveryHistory.SoundPlan(x.c.routes)
  {
    OriginIsSound(x.origin);
    PlannedRoutesAreRows(x);
    RunKeepsSound(x.threshold, x.w, x.calls, x.RouteIds());
  }

  lemma {:induction false} AnswerIsComparable(answer: Answer)
    requires answer.Ok() && RecoveryHistory.SoundPlan(answer.f.c.routes)
    ensures Comparison.DistinctKeys(Comparison.Actions(answer.Rows())) <==> CandidateActions.NothingRepeats(answer.f.c)
  {
    CandidateActions.CandidateIsComparable(answer.f, answer.locations, answer.distances, answer.durations, answer.result, answer.first);
  }

  /** For a stored plan at whatever point of its execution: the candidate of a certified, fully assigned
      recovery can be compared with it, and is as sound, exactly when no order that the incident was
      reported to affect has been completed since. */
  lemma {:induction false} RecoveryIsComparableIff(x: Replan, answer: Answer)
    requires x.Ok() && answer.Ok() && answer.f.c == x.c
    ensures Comparison.DistinctKeys(Comparison.Actions(answer.Rows())) <==> NoneFinished(x.b)
    ensures RecoveryHistory.SoundPlan(answer.Rows()) <==> NoneFinished(x.b)
  {
    RepeatsIffFinishedAffected(x);
    PlanOfRecoveryIsSound(x);
    AnswerIsSound(answer);
    AnswerIsComparable(answer);
  }
}
