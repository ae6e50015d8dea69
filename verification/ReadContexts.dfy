/** What the context of a recovery reads from the tables of a stored plan: it is complete, nothing obstructs
    it, and initial loads fit. */
module ReadContexts {
  import opened Ordering
  import opened Domain
  import opened Optimization
  import opened Feasibility
  import opened Finalizer
  import opened FinalizedPlan
  import opened CapacitySafety
  import opened Execution
  import opened ExecutionInvariants
  import Candidate
  import opened RecoveryContext
  import RecoveryHistory
  import Protocol
  import opened ExecutedPlans
  import opened ReplannedOrders
  import opened RecoveryLoads

  // ----- the context is complete -----

  lemma {:induction false} OrderIsRead(x: Replan, o: Id)
    requires x.Ok() && o in x.After().orders
    ensures o in x.b.rows && 0 < x.After().orders[o].demand
  {
    PlannedIsStored(x);
    FreshIsOk(x.w);
    HistoryIsKept(x.threshold, x.w, StartRanks(x.w), x.calls);
    assert OrderExtends(x.w.orders[o], x.After().orders[o]);
    PlanningOrderKeys(x.origin.facts.orders);
    var j :| 0 <= j < |x.origin.facts.orders| && x.origin.facts.orders[j].orderId == o;
    MemberOfOrder(x, j);
    DemandIsPositive(x.origin, o);
  }

  lemma {:induction false} DemandIsPositive(origin: Origin, o: Id)
    requires origin.Ok() && o in PlanningOrdersById(origin.facts.orders)
    ensures 0 < PlanningOrdersById(origin.facts.orders)[o].demand
  {
    var input := BuildSolverInput(origin.facts, origin.locations, origin.distances, origin.durations);
    DictionariesAreKnown(input);
    OrdersAgree(origin.facts.now, origin.facts.orders);
    assert OrdersById(input.orders)[o].Valid();
  }

  /** A membership names a route with a stop of the order. */
  lemma {:induction false} MemberIsServed(x: Replan, o: Id)
    requires x.Ok() && o in x.b.rows && x.b.rows[o].routeId.Some? && x.b.rows[o].routeId.value in x.After().routes
    ensures ServedBy(x.After(), x.b.rows[o].routeId.value, o)
  {
    PlannedIsStored(x);
    var routes := x.origin.result.routes;
    var members := MembersSettle(x);
    var j :| MemberRead(x.b, members, j, o);
    var i :| OnRoute(routes, i, o) && members[j].routeId == RouteIdAt(x.origin.first, routes, i);
    NewRouteIsFinalized(x.Tables(), x.origin.first, routes, i);
    var k :| 0 <= k < |routes[i].stops| && routes[i].stops[k].orderId == o;
    RouteKeepsId(x, i);
    RunCargo(x, i, 0);
    SolverStopOf(x, i, k);
  }

  lemma {:induction false} RowIsRead(x: Replan, o: Id)
    requires x.Ok() && o in x.b.rows
    ensures RowReadFrom(x.b.rows[o], x.After(), o)
  {
    StatusIsRead(x, o);
    OrderIsRead(x, o);
    if x.b.rows[o].routeId.Some? && x.b.rows[o].routeId.value in x.After().routes { MemberIsServed(x, o); }
  }

  lemma {:induction false} VehiclesDiffer(b: Base, routes: seq<Route>, r: Id, q: Id)
    requires Known(b, routes) && r in b.routes && q in b.routes && b.routes[r].vehicleId == b.routes[q].vehicleId
    ensures r == q
  {
    assert RouteKnown(b, routes, r) && RouteKnown(b, routes, q);
    var i :| RouteAt(routes, i, b.routes[r]);
    var j :| RouteAt(routes, j, b.routes[q]);
    assert i == j;
  }

  lemma {:induction false} RoutesAreRead(x: Replan)
    requires x.Ok()
    ensures x.b.routes == x.After().routes
  {
  }

  lemma {:induction false} EveryRowIsRead(x: Replan)
    requires x.Ok()
    ensures forall o :: o in x.b.rows ==> RowReadFrom(x.b.rows[o], x.After(), o)
  {
    forall o | o in x.b.rows ensures RowReadFrom(x.b.rows[o], x.After(), o) {
      RowIsRead(x, o);
    }
  }

  lemma {:induction false} RowsAreRead(x: Replan)
    requires x.Ok()
    ensures forall o :: o in x.b.rows ==> RowReadFrom(x.b.rows[o], x.After(), o)
    ensures x.b.rows.Keys == x.After().orders.Keys
  {
    EveryRowIsRead(x);
    OrdersAreCovered(x);
  }

  lemma {:induction false} OrdersAreCovered(x: Replan)
    requires x.Ok()
    ensures x.After().orders.Keys <= x.b.rows.Keys
  {
    forall o | o in x.After().orders ensures o in x.b.rows {
      OrderIsRead(x, o);
    }
  }

  lemma {:induction false} KnownReads(b: Base, w: World, routes: seq<Route>)
    requires Known(b, routes) && b.routes == w.routes && b.rows.Keys == w.orders.Keys
    requires forall o :: o in b.rows ==> RowReadFrom(b.rows[o], w, o)
    ensures ReadFrom(b, w)
  {
    forall r, q | r in w.routes && q in w.routes && w.routes[r].vehicleId == w.routes[q].vehicleId ensures r == q {
      VehiclesDiffer(b, routes, r, q);
    }
  }

  /** The context of a stored plan covers exactly its orders, with status, demand and the route that serves
      each. */
  lemma {:induction false} ContextIsRead(x: Replan)
    requires x.Ok()
    ensures ReadFrom(x.b, x.After())
  {
    RoutesAreRead(x);
    PlanIsKnown(x);
    RowsAreRead(x);
    KnownReads(x.b, x.After(), x.c.routes);
  }

  /** So the initial load of the vehicle of any route fits its capacity. */
  lemma {:induction false} InitialLoadsFit(x: Replan, r: nat)
    requires x.Ok() && r < |x.c.routes|
    ensures 0 <= LoadOn(x.c.targets, x.c.routes[r].vehicleId) <= x.c.routes[r].capacity
  {
    ContextIsRead(x);
    PlannedIsStored(x);
    FactsAreRead(x);
    RouteKeepsId(x, r);
    InitialLoadFits(x.threshold, x.w, x.Tables(), x.RouteIds(), x.origin.result, x.calls, r, x.b, x.targets, x.c.targets);
  }

  // ----- nothing obstructs it -----

  lemma {:induction false} OnBoardHasRoute(x: Replan, o: Id)
    requires x.Ok() && o in x.b.rows && OnBoard(x.b.rows[o])
    ensures HasRoute(x.b, x.b.rows[o])
  {
    PlanIsKnown(x);
    assert ServedIn(x.c.routes, o);
    var r, k :| StopAt(x.c.routes, r, k) && x.c.routes[r].stops[k].orderId == o;
    StopNamesRoute(x.b, x.c.routes, r, k);
  }

  /** The tables are read; an incident may or may not be. */
  ghost predicate TablesRead(x: Replan)
    requires x.Planned()
  {
    RowsIn(x.After(), x.RouteIds()) && ReadTables(x.b, x.After(), NewMemberships(x.origin.facts, x.origin.result, x.Tables(), x.origin.first))
  }

  /** The same tables without an incident. */
  ghost function Quiet(x: Replan): Replan
    requires x.Planned() && TablesRead(x)
  {
    x.(b := x.b.(impacts := map[]), scope := Protocol.AffectedRoute, targets := {},
       c := x.c.(targets := [], routes := PlanRoutes(x.After(), x.RouteIds())))
  }

  lemma {:induction false} TablesStayRead(x: Base, y: Base, w: World, members: seq<Membership>)
    requires y.rows == x.rows && y.routes == x.routes && ReadTables(x, w, members)
    ensures ReadTables(y, w, members)
  {
    forall o | o in y.rows ensures exists j :: MemberRead(y, members, j, o) {
      var j :| MemberRead(x, members, j, o);
      assert MemberRead(y, members, j, o);
    }
  }

  lemma {:induction false} NothingInScope(b: Base)
    requires b.impacts == map[]
    ensures forall o :: !InScope(b, Protocol.AffectedRoute, o)
  {
  }

  lemma {:induction false} QuietIsOk(x: Replan)
    requires x.Planned() && TablesRead(x)
    ensures Quiet(x).Ok()
  {
    TablesStayRead(x.b, Quiet(x).b, x.After(), NewMemberships(x.origin.facts, x.origin.result, x.Tables(), x.origin.first));
    NothingInScope(Quiet(x).b);
    assert Ascending({}) == [];
  }

  lemma {:induction false} OnBoardIsRouted(x: Replan, o: Id)
    requires x.Planned() && TablesRead(x) && o in x.b.rows && OnBoard(x.b.rows[o])
    ensures HasRoute(x.b, x.b.rows[o])
  {
    QuietIsOk(x);
    OnBoardHasRoute(Quiet(x), o);
  }

  /** The affected orders are members, and a handover has a place. */
  ghost predicate IncidentRead(b: Base) {
    && (exists o :: Affected(b, o)) && (forall o :: Affected(b, o) ==> o in b.rows)
    && ((exists o :: HandsOver(b, o)) ==> b.incidentLocation.Some?)
  }

  lemma {:induction false} RoutedIsUnobstructed(b: Base, scope: Scope)
    requires IncidentRead(b) && forall o :: o in b.rows && OnBoard(b.rows[o]) ==> HasRoute(b, b.rows[o])
    ensures !Obstructed(b, scope)
  {
  }

  /** However far a stored plan has been executed, the context of an incident on it can be read in every
      scope. */
  lemma {:induction false} StoredPlanIsUnobstructed(x: Replan)
    requires x.Planned() && TablesRead(x) && IncidentRead(x.b)
    ensures forall scope :: !Obstructed(x.b, scope)
  {
    forall o | o in x.b.rows && OnBoard(x.b.rows[o]) ensures HasRoute(x.b, x.b.rows[o]) {
      OnBoardIsRouted(x, o);
    }
    forall scope ensures !Obstructed(x.b, scope) {
      RoutedIsUnobstructed(x.b, scope);
    }
  }
}
